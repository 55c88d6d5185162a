/** `src/formatter.py`: the verdict extractor that reads a judge model's answer, the two
    request validators, and the per-mode report rows written as tab-separated text. */
module Formatter {
  import opened Wrappers
  import opened Strings
  import opened JsonValues

  // ---------------------------------------------------------------------------
  // contain_is_pass

  /** The Korean tokens that also mean a pass. */
  predicate KoreanPass(key: string) {
    Contains(Lower(key), "패스") || Contains(Lower(key), "패쓰") || Contains(key, "통과") || Contains(key, "합격")
  }

  /** The key holds none of the tokens the classifier looks for. */
  predicate NoToken(key: string) {
    !Contains(Lower(key), "pass") && !Contains(Lower(key), "fail") && !KoreanPass(key)
  }

  /** `contain_is_pass`: the first token found decides, in the order "pass" (any case),
      "fail" (any case), then the Korean pass tokens; a key with no token comes back as is. */
  function ContainIsPass(key: string): (r: string)
    ensures r == "pass" <==> Contains(Lower(key), "pass") || (!Contains(Lower(key), "fail") && KoreanPass(key))
    ensures r == "fail" <==> !Contains(Lower(key), "pass") && Contains(Lower(key), "fail")
    ensures r != "pass" && r != "fail" <==> NoToken(key)
    ensures NoToken(key) ==> r == key
  {
    if Contains(Lower(key), "pass") then "pass"
    else if Contains(Lower(key), "fail") then "fail"
    else if Contains(Lower(key), "패스") then "pass"
    else if Contains(Lower(key), "패쓰") then "pass"
    else if Contains(key, "통과") then "pass"
    else if Contains(key, "합격") then "pass"
    else
      TokensAreTokens();
      key
  }

  /** The two verdicts are themselves keys holding a token. */
  lemma {:induction false} TokensAreTokens()
    ensures !NoToken("pass") && !NoToken("fail")
  {
    LowerNoCapitals("pass");
    LowerNoCapitals("fail");
    assert StartsWith("pass", "pass");
    assert StartsWith("fail", "fail");
  }

  // ---------------------------------------------------------------------------
  // Finding the judge's text in a response

  /** `len(x[key]) > 0`. */
  function NonEmptyAt(x: Json, key: string): Result<bool, PyError> {
    var v :- Subscript(x, key);
    var n :- PyLen(v);
    Success(n > 0)
  }

  /** `response['choices'][0]['message']['content']` when both keys are there, else `None`. */
  function ChoicesContent(response: Json): Result<Json, PyError> {
    var choices :- Subscript(response, "choices");
    var first :- First(choices);
    var hasMessage :- PyIn("message", first);
    if !hasMessage then Success(Null)
    else
      var message :- Subscript(first, "message");
      var hasContent :- PyIn("content", message);
      if hasContent then Subscript(message, "content") else Success(Null)
  }

  /** `response['results'][0]['outputText']` when the key is there, else `None`. */
  function ResultsContent(response: Json): Result<Json, PyError> {
    var results :- Subscript(response, "results");
    var first :- First(results);
    var hasText :- PyIn("outputText", first);
    if hasText then Subscript(first, "outputText") else Success(Null)
  }

  /** The probe shared by `convert_eval_key` and the three `set_report_params`: the
      OpenAI `choices` shape, then `completion`, then a `results` list, then `content`.
      The first shape whose test holds decides, even when it yields no text; `Null` is
      Python's `None`, "nothing found". */
  function LocateContent(response: Json): Result<Json, PyError> {
    var hasChoices :- PyIn("choices", response);
    var choicesProbe :- if hasChoices then NonEmptyAt(response, "choices") else Success(false);
    if choicesProbe then ChoicesContent(response)
    else
      var hasCompletion :- PyIn("completion", response);
      if hasCompletion then Subscript(response, "completion")
      else
        var hasResults :- PyIn("results", response);
        var resultsProbe :- if hasResults then NonEmptyAt(response, "results") else Success(false);
        if resultsProbe then ResultsContent(response)
        else
          var hasContent :- PyIn("content", response);
          if hasContent then Subscript(response, "content") else Success(Null)
  }

  // ---------------------------------------------------------------------------
  // convert_eval_key

  /** `''.join(text.strip().split('\n')[-n:])`: the last `n` lines, glued together. */
  function WindowKey(text: string, n: nat): string {
    Concat(LastN(Split(Strip(text), '\n'), n))
  }

  /** The sign-off that sometimes ends a judge's answer after its verdict. */
  const Boilerplate: string := "입니다."

  /** The verdict read from the judge's text: the last two lines, classified; when they
      are exactly the sign-off, the last four lines instead. */
  function VerdictFromText(text: string): string {
    var key := ContainIsPass(WindowKey(text, 2));
    if key == "pass" || key == "fail" then key
    else if key == Boilerplate then ContainIsPass(WindowKey(text, 4))
    else key
  }

  /** `convert_eval_key`: 'fail' when no text is found (the diagnostic then calls
      `response.keys()`, which only a dict has); a text that is not a string has no
      `strip` and raises. */
  function ConvertEvalKey(response: Json): Result<string, PyError> {
    var content :- LocateContent(response);
    VerdictOfContent(response, content)
  }

  /** The verdict once the probe has found `content` in `response`. */
  function VerdictOfContent(response: Json, content: Json): Result<string, PyError> {
    if content.Null? then
      if response.Obj? then Success("fail") else Failure(AttributeError)
    else if content.Str? then Success(VerdictFromText(content.s))
    else Failure(AttributeError)
  }

  /** Whatever the text, its verdict is 'pass', 'fail', or a key holding none of the tokens. */
  lemma {:induction false} VerdictHasToken(text: string)
    ensures var v := VerdictFromText(text);
            v == "pass" || v == "fail" || NoToken(v)
  {
    var key := ContainIsPass(WindowKey(text, 2));
    if key == Boilerplate {
      var key4 := ContainIsPass(WindowKey(text, 4));
      assert key4 == "pass" || key4 == "fail" || NoToken(WindowKey(text, 4));
    }
  }

  /** A verdict that is neither 'pass' nor 'fail' holds none of the tokens. */
  lemma {:induction false} UnresolvedVerdictHasNoToken(response: Json)
    requires ConvertEvalKey(response).Success?
    ensures var v := ConvertEvalKey(response).value;
            v == "pass" || v == "fail" || NoToken(v)
  {
    var content := LocateContent(response).value;
    assert ConvertEvalKey(response) == VerdictOfContent(response, content);
    if content.Str? {
      VerdictHasToken(content.s);
    }
  }

  /** A 2-line key that classifies as 'pass' or 'fail' is the verdict. */
  lemma {:induction false} DecidedByLastTwoLines(text: string, key: string)
    requires WindowKey(text, 2) == key
    requires ContainIsPass(key) == "pass" || ContainIsPass(key) == "fail"
    ensures VerdictFromText(text) == ContainIsPass(key)
  {
  }

  /** A `content` answer whose last two lines `x` and `y` classify as 'pass' or 'fail'
      together gets that verdict. */
  lemma {:induction false} DecidedExample(text: string, pre: string, x: string, y: string)
    requires '\n' !in x && '\n' !in y
    requires Strip(text) == pre + "\n" + x + "\n" + y
    requires ContainIsPass(x + y) == "pass" || ContainIsPass(x + y) == "fail"
    ensures ConvertEvalKey(Obj(map["content" := Str(text)])) == Success(ContainIsPass(x + y))
  {
    ContentTextVerdict(text);
    WindowKeyLastTwoLines(text, pre, x, y);
    DecidedByLastTwoLines(text, x + y);
  }

  /** A dict without any of the four fields gives 'fail' and raises nothing. */
  lemma {:induction false} NoContentIsFail(fields: map<string, Json>)
    requires "choices" !in fields && "completion" !in fields && "results" !in fields && "content" !in fields
    ensures ConvertEvalKey(Obj(fields)) == Success("fail")
  {
    assert LocateContent(Obj(fields)) == Success(Null);
  }

  /** The verdict of a response whose only probed field is a `content` text. */
  lemma {:induction false} ContentTextVerdict(text: string)
    ensures ConvertEvalKey(Obj(map["content" := Str(text)])) == Success(VerdictFromText(text))
  {
    var response := Obj(map["content" := Str(text)]);
    assert PyIn("choices", response) == Success(false);
    assert PyIn("completion", response) == Success(false);
    assert PyIn("results", response) == Success(false);
    assert PyIn("content", response) == Success(true);
    assert LocateContent(response) == Success(Str(text));
    assert ConvertEvalKey(response) == VerdictOfContent(response, Str(text));
  }

  /** A non-empty `choices` list decides alone: when its first element is a dict without a
      message text, the verdict is 'fail' whatever the other fields hold. */
  lemma {:induction false} ChoicesShadowsOthers(fields: map<string, Json>, first: map<string, Json>, rest: seq<Json>)
    requires "choices" in fields && fields["choices"] == Arr([Obj(first)] + rest)
    requires "message" !in first || (first["message"].Obj? && "content" !in first["message"].fields)
    ensures ConvertEvalKey(Obj(fields)) == Success("fail")
  {
    assert ([Obj(first)] + rest)[0] == Obj(first);
    assert NonEmptyAt(Obj(fields), "choices") == Success(true);
    assert ChoicesContent(Obj(fields)) == Success(Null);
    assert LocateContent(Obj(fields)) == Success(Null);
  }

  /** Without a usable `choices` list (absent or empty), `completion` comes before
      `results` and `content`. */
  lemma {:induction false} CompletionBeforeOthers(fields: map<string, Json>)
    requires "choices" !in fields || fields["choices"] == Arr([])
    requires "completion" in fields
    ensures LocateContent(Obj(fields)) == Success(fields["completion"])
  {
  }

  /** `choices` is absent or an empty list, so its probe does not fire. */
  predicate NoChoices(fields: map<string, Json>) {
    "choices" !in fields || fields["choices"] == Arr([])
  }

  /** A non-empty `results` list decides before `content`: when its first element is a dict
      without `outputText`, the verdict is 'fail' even if `content` holds a text. */
  lemma {:induction false} ResultsShadowContent(fields: map<string, Json>, first: map<string, Json>, rest: seq<Json>)
    requires NoChoices(fields) && "completion" !in fields
    requires "results" in fields && fields["results"] == Arr([Obj(first)] + rest)
    requires "outputText" !in first
    ensures ConvertEvalKey(Obj(fields)) == Success("fail")
  {
    assert ([Obj(first)] + rest)[0] == Obj(first);
    assert NonEmptyAt(Obj(fields), "results") == Success(true);
    assert ResultsContent(Obj(fields)) == Success(Null);
    assert LocateContent(Obj(fields)) == Success(Null);
  }

  /** Empty `choices` and `results` lists are passed over, and `content` is read. */
  lemma {:induction false} EmptyListsFallThrough(fields: map<string, Json>)
    requires NoChoices(fields) && "completion" !in fields
    requires "results" !in fields || fields["results"] == Arr([])
    requires "content" in fields
    ensures LocateContent(Obj(fields)) == Success(fields["content"])
  {
    assert NoChoices(fields);
    assert "results" in fields ==> NonEmptyAt(Obj(fields), "results") == Success(false);
  }

  /** The 2-line key is the last two lines of the stripped text with no separator. */
  lemma {:induction false} WindowKeyLastTwoLines(text: string, pre: string, x: string, y: string)
    requires '\n' !in x && '\n' !in y
    requires Strip(text) == x + "\n" + y || Strip(text) == pre + "\n" + x + "\n" + y
    ensures WindowKey(text, 2) == x + y
  {
    LastTwoLines(Strip(text), pre, x, y);
    ConcatPair(x, y);
  }

  lemma {:induction false} LastTwoLines(s: string, pre: string, x: string, y: string)
    requires '\n' !in x && '\n' !in y
    requires s == x + "\n" + y || s == pre + "\n" + x + "\n" + y
    ensures LastN(Split(s, '\n'), 2) == [x, y]
  {
    if s == x + "\n" + y {
      SplitAppendLine(x, y, '\n');
      assert IndexOfChar(x, '\n') == |x| by { assert x[..|x|] == x; }
      assert Split(s, '\n') == [x, y];
    } else {
      assert s == (pre + "\n" + x) + "\n" + y;
      SplitAppendLine(pre + "\n" + x, y, '\n');
      SplitAppendLine(pre, x, '\n');
      assert Split(s, '\n') == Split(pre, '\n') + [x] + [y];
    }
  }

  lemma {:induction false} ConcatPair(x: string, y: string)
    ensures Concat([x, y]) == x + y
  {
    assert [x, y][1..] == [y];
    assert Join([y], "") == y;
    assert x + "" + y == x + y;
  }

  /** The 4-line window is read only when the 2-line key is exactly the sign-off; any other
      unresolved 2-line key is the verdict as it is. */
  lemma {:induction false} FallbackOnlyOnBoilerplate(text: string)
    ensures ContainIsPass(WindowKey(text, 2)) != Boilerplate ==>
              VerdictFromText(text) == ContainIsPass(WindowKey(text, 2))
    ensures ContainIsPass(WindowKey(text, 2)) == Boilerplate <==>
              WindowKey(text, 2) == Boilerplate
    ensures WindowKey(text, 2) == Boilerplate ==>
              VerdictFromText(text) == ContainIsPass(WindowKey(text, 4))
  {
    BoilerplateHasNoToken();
  }

  lemma {:induction false} BoilerplateHasNoToken()
    ensures NoToken(Boilerplate)
  {
    LowerNoCapitals(Boilerplate);
    NotContainsFirst(Boilerplate, "pass");
    NotContainsFirst(Boilerplate, "fail");
    NotContainsFirst(Boilerplate, "패스");
    NotContainsFirst(Boilerplate, "패쓰");
    NotContainsFirst(Boilerplate, "통과");
    NotContainsFirst(Boilerplate, "합격");
  }

  /** A key without capitals, `p` or `f` holds neither Latin token. */
  lemma {:induction false} NoLatinTokens(key: string)
    requires forall k :: 0 <= k < |key| ==> !('A' <= key[k] <= 'Z')
    requires 'p' !in key && 'f' !in key
    ensures !Contains(Lower(key), "pass") && !Contains(Lower(key), "fail")
  {
    LowerNoCapitals(key);
    NotContainsFirst(key, "pass");
    NotContainsFirst(key, "fail");
  }

  /** The key "정답입니다" + "통과" holds only the token 통과. */
  lemma {:induction false} KoreanKeyPasses()
    ensures ContainIsPass("정답입니다" + "통과") == "pass"
  {
    var key := "정답입니다" + "통과";
    NoLatinTokens(key);
    assert key[5..7] == "통과";
    ContainsAt(key, "통과", 5);
  }

  /** An answer ending "…\n정답입니다\n통과" is a pass: the Korean token decides. */
  lemma {:induction false} ExampleKoreanPass(text: string, pre: string)
    requires Strip(text) == pre + "\n" + "정답입니다" + "\n" + "통과"
    ensures ConvertEvalKey(Obj(map["content" := Str(text)])) == Success("pass")
  {
    KoreanKeyPasses();
    DecidedExample(text, pre, "정답입니다", "통과");
  }

  /** The key "the answer is wrong." + "fail" holds "fail" and no "pass". */
  lemma {:induction false} EnglishKeyFails()
    ensures ContainIsPass("the answer is wrong." + "fail") == "fail"
  {
    var key := "the answer is wrong." + "fail";
    LowerNoCapitals(key);
    NotContainsFirst(key, "pass");
    ContainsSuffix("the answer is wrong.", "fail");
  }

  lemma {:induction false} ContainsSuffix(a: string, b: string)
    ensures Contains(a + b, b)
  {
    assert (a + b)[|a|..|a| + |b|] == b;
    ContainsAt(a + b, b, |a|);
  }

  /** An answer ending "…\nthe answer is wrong.\nfail" is a fail. */
  lemma {:induction false} ExampleFail(text: string, pre: string)
    requires Strip(text) == pre + "\n" + "the answer is wrong." + "\n" + "fail"
    ensures ConvertEvalKey(Obj(map["content" := Str(text)])) == Success("fail")
  {
    EnglishKeyFails();
    DecidedExample(text, pre, "the answer is wrong.", "fail");
  }

  /** The four-line key "통과근거입니다." holds the token 통과. */
  lemma {:induction false} FourLineKeyPasses()
    ensures ContainIsPass("통과근거입니다.") == "pass"
  {
    var key := "통과근거입니다.";
    NoLatinTokens(key);
    assert key[0..2] == "통과";
    ContainsAt(key, "통과", 0);
  }

  /** The sign-off fallback at work: for the answer "통과\n근거\n\n입니다." the last two
      lines give "입니다.", so the last four lines decide, and they hold 통과. */
  lemma {:induction false} ExampleBoilerplateFallback(text: string)
    requires Strip(text) == "통과\n근거\n\n입니다."
    ensures WindowKey(text, 2) == Boilerplate
    ensures ConvertEvalKey(Obj(map["content" := Str(text)])) == Success("pass")
  {
    ContentTextVerdict(text);
    FallbackLines(text);
    FallbackOnlyOnBoilerplate(text);
    FourLineKeyPasses();
  }

  /** The lines of "통과\n근거\n\n입니다." and the keys its two windows give. */
  lemma {:induction false} FallbackLines(text: string)
    requires Strip(text) == "통과\n근거\n\n입니다."
    ensures WindowKey(text, 2) == Boilerplate
    ensures WindowKey(text, 4) == "통과근거입니다."
  {
    FallbackSplit(Strip(text));
    var lines := ["통과", "근거", "", Boilerplate];
    FallbackTwoLineKey(lines);
    FallbackFourLineKey(lines);
  }

  lemma {:induction false} FallbackSplit(s: string)
    requires s == "통과\n근거\n\n입니다."
    ensures Split(s, '\n') == ["통과", "근거", "", Boilerplate]
  {
    assert s == "통과" + "\n" + "근거" + "\n" + "" + "\n" + Boilerplate;
    SplitFourLines("통과", "근거", "", Boilerplate);
  }

  lemma {:induction false} FallbackTwoLineKey(lines: seq<string>)
    requires lines == ["통과", "근거", "", Boilerplate]
    ensures Concat(LastN(lines, 2)) == Boilerplate
  {
    assert LastN(lines, 2) == ["", Boilerplate];
    ConcatPair("", Boilerplate);
    assert "" + Boilerplate == Boilerplate;
  }

  lemma {:induction false} FallbackFourLineKey(lines: seq<string>)
    requires lines == ["통과", "근거", "", Boilerplate]
    ensures Concat(LastN(lines, 4)) == "통과근거입니다."
  {
    assert LastN(lines, 4) == lines;
    ConcatFour("통과", "근거", "", Boilerplate);
    assert "통과" + "근거" + "" + Boilerplate == "통과근거입니다.";
  }

  /** Four lines without line breaks, joined by line breaks, split back into themselves. */
  lemma {:induction false} SplitFourLines(a: string, b: string, c: string, d: string)
    requires '\n' !in a && '\n' !in b && '\n' !in c && '\n' !in d
    ensures Split(a + "\n" + b + "\n" + c + "\n" + d, '\n') == [a, b, c, d]
  {
    assert IndexOfChar(a, '\n') == |a| by { assert a[..|a|] == a; }
    SplitAppendLine(a, b, '\n');
    SplitAppendLine(a + "\n" + b, c, '\n');
    SplitAppendLine(a + "\n" + b + "\n" + c, d, '\n');
  }

  lemma {:induction false} ConcatFour(a: string, b: string, c: string, d: string)
    ensures Concat([a, b, c, d]) == a + b + c + d
  {
    ConcatPair(c, d);
    assert [a, b, c, d][1..] == [b, c, d];
    assert [b, c, d][1..] == [c, d];
    assert Concat([b, c, d]) == b + "" + (c + d);
    assert Concat([a, b, c, d]) == a + "" + (b + c + d);
  }

  // ---------------------------------------------------------------------------
  // RequestFormatter validators

  /** `ensure_acceptable_arguments`: a dict under `acceptable_arguments` is replaced by its
      JSON text; any other value, and a missing key, are left alone. */
  function EnsureAcceptableArguments(values: map<string, Json>, dumps: Json -> string): (r: map<string, Json>)
    ensures r.Keys == values.Keys
    ensures forall k :: k in values && k != "acceptable_arguments" ==> r[k] == values[k]
    ensures "acceptable_arguments" in values ==>
              r["acceptable_arguments"] == if values["acceptable_arguments"].Obj?
                                           then Str(dumps(values["acceptable_arguments"]))
                                           else values["acceptable_arguments"]
  {
    var acceptable := Get(values, "acceptable_arguments", Str(""));
    if acceptable.Obj? then values["acceptable_arguments" := Str(dumps(acceptable))] else values
  }

  /** Running the validator again changes nothing: what it leaves is never a dict. */
  lemma {:induction false} EnsureAcceptableArgumentsIdempotent(values: map<string, Json>, dumps: Json -> string)
    ensures EnsureAcceptableArguments(EnsureAcceptableArguments(values, dumps), dumps)
            == EnsureAcceptableArguments(values, dumps)
  {
    var once := EnsureAcceptableArguments(values, dumps);
    assert "acceptable_arguments" in once ==> !once["acceptable_arguments"].Obj?;
  }

  /** `s.split(pat)[1]`: the text between the first and the second `pat`, or after the first
      when there is no second; without any `pat` the index is out of range. */
  function SecondPiece(s: string, pat: string): (r: Result<string, PyError>)
    requires pat != []
    ensures r.Failure? <==> !Contains(s, pat)
    ensures r.Failure? ==> r.error == IndexError
    ensures r.Success? ==> !Contains(r.value, pat)
    ensures r.Success? ==> PieceAt(s[FindFirst(s, pat).value + |pat|..], pat, r.value)
  {
    match FindFirst(s, pat)
    case None => Failure(IndexError)
    case Some(i) =>
      var rest := s[i + |pat|..];
      match FindFirst(rest, pat)
      case None =>
        WholePiece(rest, pat);
        Success(rest)
      case Some(j) =>
        PieceUpToFirst(rest, pat, j);
        Success(rest[..j])
  }

  /** `piece` is the first piece of `p` when split on `pat`: a prefix of `p` in which no
      occurrence of `pat` starts, ending at the end of `p` or where `pat` occurs. */
  predicate PieceAt(p: string, pat: string, piece: string) {
    StartsWith(p, piece)
    && (|piece| == |p| || StartsWith(p[|piece|..], pat))
    && forall k :: 0 <= k < |piece| ==> !StartsWith(p[k..], pat)
  }

  /** A text without the pattern is its own first piece. */
  lemma {:induction false} WholePiece(p: string, pat: string)
    requires !Contains(p, pat)
    ensures PieceAt(p, pat, p)
  {
    assert p[..|p|] == p;
    forall k | 0 <= k < |p| ensures !StartsWith(p[k..], pat) {
      NotContainsAnywhere(p, pat, k);
    }
  }

  /** The text before the first occurrence of the pattern is the first piece. */
  lemma {:induction false} PieceUpToFirst(p: string, pat: string, j: nat)
    requires pat != [] && FindFirst(p, pat) == Some(j)
    ensures PieceAt(p, pat, p[..j]) && !Contains(p[..j], pat)
  {
    PieceBeforeFirst(p, pat, j);
    assert p[j..][..|pat|] == p[j..j + |pat|];
    assert p[..j][..j] == p[..j];
  }

  /** The text before the first occurrence of a pattern does not contain it. */
  lemma {:induction false} PieceBeforeFirst(s: string, pat: string, j: nat)
    requires pat != [] && FindFirst(s, pat) == Some(j)
    ensures !Contains(s[..j], pat)
    decreases |s|
  {
    if j > 0 {
      assert !StartsWith(s, pat);
      PieceBeforeFirst(s[1..], pat, j - 1);
      assert s[..j][1..] == s[1..][..j - 1];
      assert !StartsWith(s[..j], pat);
    }
  }

  const IncludeLowercase: string := "\"include_lowercase\""
  const EscapedIncludeLowercase: string := "\\\"include_lowercase\\\""

  /** The suffix repair of `clean_ground_truth`: the arguments text always ends up ending
      with `"}`, either by appending `"}` or by escaping the quote of a final `"}"}`; the
      text before the last four characters is never touched. */
  function RepairArgumentsSuffix(args: string): (r: string)
    ensures EndsWith(r, "\"}")
    ensures StartsWith(r, args) || (|args| >= 4 && r == args[..|args| - 4] + "\\\"}\"}")
  {
    if !EndsWith(args, "\"}") then args + "\"}"
    else if EndsWith(args, "\\\"}") then args + "\"}"
    else if EndsWith(args, "\\\"}\"}") then args
    else if EndsWith(args, "\"}\"}") then args[..|args| - 4] + "\\\"}\"}"
    else args
  }

  /** `clean_ground_truth`: a string ground truth has the arguments text after its first
      `arguments` escaped and repaired, then is parsed; any other value is kept. */
  function CleanGroundTruth(values: map<string, Json>, loads: string -> Option<Json>): Result<map<string, Json>, PyError> {
    var groundTruth := Get(values, "ground_truth", Str(""));
    if !groundTruth.Str? then Success(values["ground_truth" := groundTruth])
    else
      var args :- SecondPiece(groundTruth.s, "arguments");
      var repaired := RepairArgumentsSuffix(Replace(args, IncludeLowercase, EscapedIncludeLowercase));
      var text := Replace(groundTruth.s, args, repaired);
      match loads(text)
      case None => Failure(DecodeError(text))
      case Some(parsed) => Success(values["ground_truth" := parsed])
  }

  /** A string ground truth without `arguments`, and a missing one (read as ''), raise. */
  lemma {:induction false} GroundTruthNeedsArguments(values: map<string, Json>, loads: string -> Option<Json>)
    requires "ground_truth" !in values || (values["ground_truth"].Str? && !Contains(values["ground_truth"].s, "arguments"))
    ensures CleanGroundTruth(values, loads) == Failure(IndexError)
  {
    if "ground_truth" !in values {
      NotContainsFirst("", "arguments");
    }
  }

  /** A ground truth that is already a dict (or any other non-string) is kept. */
  lemma {:induction false} GroundTruthDictKept(values: map<string, Json>, loads: string -> Option<Json>)
    requires "ground_truth" in values && !values["ground_truth"].Str?
    ensures CleanGroundTruth(values, loads) == Success(values)
  {
    assert values["ground_truth" := values["ground_truth"]] == values;
  }

  /** Replacing a text by itself changes nothing. */
  lemma {:induction false} ReplaceIdentity(s: string, t: string)
    ensures Replace(s, t, t) == s
    decreases |s|
  {
    if t == [] {
      ReplaceEmptyNothing(s);
    } else if |s| >= |t| {
      if s[..|t|] == t {
        ReplaceIdentity(s[|t|..], t);
        assert s == s[..|t|] + s[|t|..];
      } else {
        ReplaceIdentity(s[1..], t);
        assert s == [s[0]] + s[1..];
      }
    }
  }

  lemma {:induction false} ReplaceEmptyNothing(s: string)
    ensures ReplaceEmpty(s, "") == s
    decreases |s|
  {
    if s != [] {
      ReplaceEmptyNothing(s[1..]);
      assert s == [s[0]] + s[1..];
    }
  }

  /** A ground truth whose arguments text is already escaped (ends with `\"}"}` and has no
      bare `"include_lowercase"`) is parsed exactly as written. */
  lemma {:induction false} WellFormedGroundTruthParsedAsIs(values: map<string, Json>, loads: string -> Option<Json>, parsed: Json)
    requires "ground_truth" in values && values["ground_truth"].Str?
    requires SecondPiece(values["ground_truth"].s, "arguments").Success?
    requires var args := SecondPiece(values["ground_truth"].s, "arguments").value;
             !Contains(args, IncludeLowercase) && EndsWith(args, "\\\"}\"}")
    requires loads(values["ground_truth"].s) == Some(parsed)
    ensures CleanGroundTruth(values, loads) == Success(values["ground_truth" := parsed])
  {
    var s := values["ground_truth"].s;
    var args := SecondPiece(s, "arguments").value;
    ReplaceAbsent(args, IncludeLowercase, EscapedIncludeLowercase);
    RepairKeepsEscaped(args);
    ReplaceIdentity(s, args);
  }

  /** Arguments text that already ends with the escaped quote is left alone. */
  lemma {:induction false} RepairKeepsEscaped(args: string)
    requires EndsWith(args, "\\\"}\"}")
    ensures RepairArgumentsSuffix(args) == args
  {
    assert EndsWith(args, "\"}") by {
      assert args[|args| - 2..] == args[|args| - 5..][3..];
    }
    assert !EndsWith(args, "\\\"}") by {
      assert args[|args| - 3..] == args[|args| - 5..][2..];
    }
  }

  // ---------------------------------------------------------------------------
  // ResponseFormatter and the report rows

  /** The three formatter classes: common, dialog and single-call evaluation. */
  datatype Mode = Common | Dialog | SingleCall

  /** `tsv_keys` of each formatter class, in column order. */
  function TsvKeys(mode: Mode): seq<string> {
    match mode
    case Common => ["serial_num", "is_pass", "category", "type_of_output", "ground_truth",
                    "acceptable_arguments", "model_output", "reasoning", "input_messages"]
    case Dialog => ["serial_num", "is_pass", "type_of_output", "ground_truth",
                    "acceptable_arguments", "model_output", "reasoning", "query"]
    case SingleCall => ["serial_num", "is_pass", "tools_type", "ground_truth",
                        "acceptable_arguments", "model_output", "reasoning", "query"]
  }

  /** The request fields each class copies into its report, in the order it reads them. */
  function Discriminators(mode: Mode): seq<string> {
    match mode
    case Common => ["category", "type_of_output"]
    case Dialog => ["type_of_output"]
    case SingleCall => ["tools_type"]
  }

  /** `x[k]` for each key in turn; the first missing one raises. */
  function LookupAll(x: Json, keys: seq<string>): (r: Result<seq<Json>, PyError>)
    ensures r.Success? ==> |r.value| == |keys|
    decreases |keys|
  {
    if keys == [] then Success([])
    else
      var v :- Subscript(x, keys[0]);
      var rest :- LookupAll(x, keys[1..]);
      Success([v] + rest)
  }

  /** The text found by the probe, or "No reasoning available". */
  function ReasoningText(content: Json): Json {
    if content.Null? then Str("No reasoning available") else content
  }

  /** The report dict literal of each class, from the values it has read and serialised. */
  function Report(mode: Mode, serialNum: Json, isPass: Json, discriminators: seq<Json>, groundTruth: Json,
                  acceptable: Json, modelOutput: Json, reasoning: Json, messages: Json): map<string, Json>
    requires |discriminators| == |Discriminators(mode)|
  {
    match mode
    case Common =>
      map["serial_num" := serialNum, "is_pass" := isPass, "category" := discriminators[0],
          "type_of_output" := discriminators[1], "ground_truth" := groundTruth,
          "acceptable_arguments" := acceptable, "model_output" := modelOutput,
          "reasoning" := reasoning, "messages" := messages]
    case SingleCall =>
      map["serial_num" := serialNum, "is_pass" := isPass, "tools_type" := discriminators[0],
          "ground_truth" := groundTruth, "acceptable_arguments" := acceptable,
          "model_output" := modelOutput, "reasoning" := reasoning, "query" := messages]
    case Dialog =>
      map["serial_num" := serialNum, "is_pass" := isPass, "type_of_output" := discriminators[0],
          "ground_truth" := groundTruth, "acceptable_arguments" := acceptable,
          "model_output" := modelOutput, "reasoning" := reasoning, "query" := messages]
  }

  /** `set_report_params`: the report dict of one evaluated case, read in the order the
      class reads it, so that the first missing request field is the one that raises. */
  function ReportArguments(mode: Mode, values: map<string, Json>, codec: Codec): Result<map<string, Json>, PyError> {
    var request := Get(values, "request_model", Obj(map[]));
    var response := Get(values, "response_model", Obj(map[]));
    var evaluation := Get(values, "evaluate_response", Obj(map[]));
    var serialNum :- Subscript(request, "serial_num");
    var isPass :- ConvertEvalKey(evaluation);
    var discriminators :- LookupAll(request, Discriminators(mode));
    var groundTruth :- Subscript(request, "ground_truth");
    var acceptable :- Subscript(request, "acceptable_arguments");
    var content :- LocateContent(evaluation);
    var messages :- Subscript(request, "messages");
    Success(Report(mode, serialNum, Str(isPass), discriminators,
                   Str(codec.dumps(groundTruth)), Str(codec.dumps(acceptable)),
                   Str(codec.dumps(response)),
                   Str(codec.dumps(Obj(map["reasoning" := ReasoningText(content)]))),
                   Str(codec.dumps(messages))))
  }

  /** The report key each column is read from, column by column. */
  function Columns(mode: Mode): (r: seq<string>)
    ensures |r| == |TsvKeys(mode)|
    ensures forall i :: 0 <= i < |r| ==> r[i] == ColumnSource(TsvKeys(mode)[i])
  {
    var keys := TsvKeys(mode);
    seq(|keys|, i requires 0 <= i < |keys| => ColumnSource(keys[i]))
  }

  /** Each class's report has exactly the keys its columns are read from: every column is
      filled, and nothing else is stored. */
  lemma {:induction false} ReportHasColumnKeys(mode: Mode, serialNum: Json, isPass: Json, discriminators: seq<Json>,
                                               groundTruth: Json, acceptable: Json, modelOutput: Json,
                                               reasoning: Json, messages: Json)
    requires |discriminators| == |Discriminators(mode)|
    ensures var r := Report(mode, serialNum, isPass, discriminators, groundTruth, acceptable, modelOutput,
                            reasoning, messages);
            forall key :: key in r <==> key in Columns(mode)
  {
    match mode
    case Common => CommonReportKeys(serialNum, isPass, discriminators, groundTruth, acceptable, modelOutput, reasoning, messages);
    case SingleCall => SingleCallReportKeys(serialNum, isPass, discriminators, groundTruth, acceptable, modelOutput, reasoning, messages);
    case Dialog => DialogReportKeys(serialNum, isPass, discriminators, groundTruth, acceptable, modelOutput, reasoning, messages);
  }

  /** The common report holds exactly the keys of its columns. */
  lemma {:induction false} CommonReportKeys(serialNum: Json, isPass: Json, discriminators: seq<Json>,
                                      groundTruth: Json, acceptable: Json, modelOutput: Json,
                                      reasoning: Json, messages: Json)
    requires |discriminators| == |Discriminators(Common)|
    ensures var r := Report(Common, serialNum, isPass, discriminators, groundTruth, acceptable, modelOutput, reasoning, messages);
            forall key :: key in r <==> key in Columns(Common)
  {
    var r := Report(Common, serialNum, isPass, discriminators, groundTruth, acceptable, modelOutput, reasoning, messages);
    CommonColumns();
    forall key | key in r ensures key in Columns(Common) { }
    forall key | key in Columns(Common) ensures key in r { }
  }

  /** The single-call report holds exactly the keys of its columns. */
  lemma {:induction false} SingleCallReportKeys(serialNum: Json, isPass: Json, discriminators: seq<Json>,
                                      groundTruth: Json, acceptable: Json, modelOutput: Json,
                                      reasoning: Json, messages: Json)
    requires |discriminators| == |Discriminators(SingleCall)|
    ensures var r := Report(SingleCall, serialNum, isPass, discriminators, groundTruth, acceptable, modelOutput, reasoning, messages);
            forall key :: key in r <==> key in Columns(SingleCall)
  {
    var r := Report(SingleCall, serialNum, isPass, discriminators, groundTruth, acceptable, modelOutput, reasoning, messages);
    SingleCallColumns();
    forall key | key in r ensures key in Columns(SingleCall) { }
    forall key | key in Columns(SingleCall) ensures key in r { }
  }

  /** The dialog report holds exactly the keys of its columns. */
  lemma {:induction false} DialogReportKeys(serialNum: Json, isPass: Json, discriminators: seq<Json>,
                                      groundTruth: Json, acceptable: Json, modelOutput: Json,
                                      reasoning: Json, messages: Json)
    requires |discriminators| == |Discriminators(Dialog)|
    ensures var r := Report(Dialog, serialNum, isPass, discriminators, groundTruth, acceptable, modelOutput, reasoning, messages);
            forall key :: key in r <==> key in Columns(Dialog)
  {
    var r := Report(Dialog, serialNum, isPass, discriminators, groundTruth, acceptable, modelOutput, reasoning, messages);
    DialogColumns();
    forall key | key in r ensures key in Columns(Dialog) { }
    forall key | key in Columns(Dialog) ensures key in r { }
  }

  /** The report keys read by the common class's columns. */
  lemma {:induction false} CommonColumns()
    ensures Columns(Common) == ["serial_num", "is_pass", "category", "type_of_output", "ground_truth",
                                "acceptable_arguments", "model_output", "reasoning", "messages"]
  {
    assert ColumnSource("input_messages") == "messages";
  }

  /** The report keys read by the single-call class's columns. */
  lemma {:induction false} SingleCallColumns()
    ensures Columns(SingleCall) == ["serial_num", "is_pass", "tools_type", "ground_truth",
                                    "acceptable_arguments", "model_output", "reasoning", "query"]
  {
    assert TsvKeys(SingleCall)[7] == "query";
  }

  /** The report keys read by the dialog class's columns. */
  lemma {:induction false} DialogColumns()
    ensures Columns(Dialog) == ["serial_num", "is_pass", "type_of_output", "ground_truth",
                                "acceptable_arguments", "model_output", "reasoning", "query"]
  {
    assert TsvKeys(Dialog)[7] == "query";
  }

  /** `set_report_params` as a validator: the values with `report_arguments` set. */
  function SetReportParams(mode: Mode, values: map<string, Json>, codec: Codec): Result<map<string, Json>, PyError> {
    var arguments :- ReportArguments(mode, values, codec);
    Success(values["report_arguments" := Obj(arguments)])
  }

  /** A report, as far as `to_tsv` and `get_tsv_title` read it. */
  datatype ResponseFormatter = ResponseFormatter(tsvKeys: seq<string>, reportArguments: Option<map<string, Json>>)

  /** A formatter of the given class built from validated values. */
  function NewResponseFormatter(mode: Mode, values: map<string, Json>, codec: Codec): Result<ResponseFormatter, PyError> {
    var arguments :- ReportArguments(mode, values, codec);
    Success(ResponseFormatter(TsvKeys(mode), Some(arguments)))
  }

  /** The report key `to_tsv` reads for a column: `input_messages` is stored as `messages`. */
  function ColumnSource(key: string): string {
    if key == "input_messages" then "messages" else key
  }

  /** Every column of each class is filled by its `set_report_params`, and the report
      holds nothing else. */
  lemma {:induction false} ReportArgumentsCoverKeys(mode: Mode, values: map<string, Json>, codec: Codec)
    requires ReportArguments(mode, values, codec).Success?
    ensures forall k :: k in TsvKeys(mode) ==> ColumnSource(k) in ReportArguments(mode, values, codec).value
    ensures forall key :: key in ReportArguments(mode, values, codec).value ==> key in Columns(mode)
  {
    var request := Get(values, "request_model", Obj(map[]));
    var response := Get(values, "response_model", Obj(map[]));
    var evaluation := Get(values, "evaluate_response", Obj(map[]));
    var discriminators := LookupAll(request, Discriminators(mode)).value;
    var content := LocateContent(evaluation).value;
    ReportHasColumnKeys(mode, Subscript(request, "serial_num").value, Str(ConvertEvalKey(evaluation).value),
                        discriminators, Str(codec.dumps(Subscript(request, "ground_truth").value)),
                        Str(codec.dumps(Subscript(request, "acceptable_arguments").value)),
                        Str(codec.dumps(response)),
                        Str(codec.dumps(Obj(map["reasoning" := ReasoningText(content)]))),
                        Str(codec.dumps(Subscript(request, "messages").value)));
    var cols := Columns(mode);
    forall k | k in TsvKeys(mode) ensures ColumnSource(k) in cols {
      var i :| 0 <= i < |TsvKeys(mode)| && TsvKeys(mode)[i] == k;
      assert cols[i] == ColumnSource(k);
    }
  }

  /** Python's `d[key]` on `report_arguments`, which may still be `None`. */
  function Lookup(arguments: Option<map<string, Json>>, key: string): Result<Json, PyError> {
    match arguments
    case None => Failure(TypeError)
    case Some(m) => if key in m then Success(m[key]) else Failure(KeyError(key))
  }

  /** Each field followed by a tab. */
  function TabTerminated(fields: seq<string>): string
    decreases |fields|
  {
    if fields == [] then "" else TabTerminated(fields[..|fields| - 1]) + fields[|fields| - 1] + "\t"
  }

  /** The row of a report: each column's value as `str()` shows it, each followed by a tab;
      the first column without a value raises. */
  function Row(f: ResponseFormatter, codec: Codec, n: nat): Result<seq<string>, PyError>
    requires n <= |f.tsvKeys|
  {
    if n == 0 then Success([])
    else
      var prior :- Row(f, codec, n - 1);
      var value :- Lookup(f.reportArguments, ColumnSource(f.tsvKeys[n - 1]));
      Success(prior + [Show(value, codec)])
  }

  /** The fields of a full row, one per column. */
  lemma {:induction false} RowLength(f: ResponseFormatter, codec: Codec, n: nat)
    requires n <= |f.tsvKeys| && Row(f, codec, n).Success?
    ensures |Row(f, codec, n).value| == n
  {
    if n > 0 {
      RowLength(f, codec, n - 1);
    }
  }

  /** Field `k` of a row is the value of column `k` as `str()` shows it, read from the
      report under the column's key. */
  lemma {:induction false} RowFields(f: ResponseFormatter, codec: Codec, n: nat)
    requires n <= |f.tsvKeys| && Row(f, codec, n).Success?
    ensures |Row(f, codec, n).value| == n
    ensures forall k :: 0 <= k < n ==>
              f.reportArguments.Some? && ColumnSource(f.tsvKeys[k]) in f.reportArguments.value
              && Row(f, codec, n).value[k] == Show(f.reportArguments.value[ColumnSource(f.tsvKeys[k])], codec)
  {
    RowLength(f, codec, n);
    if n > 0 {
      RowFields(f, codec, n - 1);
      RowLength(f, codec, n - 1);
    }
  }

  /** A row read back by splitting on tabs gives its fields and a final empty piece, as
      long as no field holds a tab itself. */
  lemma {:induction false} SplitTabTerminated(fields: seq<string>, last: string)
    requires forall k :: 0 <= k < |fields| ==> '\t' !in fields[k]
    requires '\t' !in last
    ensures Split(TabTerminated(fields) + last, '\t') == fields + [last]
    decreases |fields|
  {
    if fields == [] {
      assert TabTerminated(fields) + last == last;
      assert IndexOfChar(last, '\t') == |last| by { assert last[..|last|] == last; }
    } else {
      var n := |fields| - 1;
      SplitTabTerminated(fields[..n], fields[n]);
      assert TabTerminated(fields) + last == (TabTerminated(fields[..n]) + fields[n]) + "\t" + last;
      SplitAppendLine(TabTerminated(fields[..n]) + fields[n], last, '\t');
      assert fields[..n] + [fields[n]] == fields;
    }
  }

  /** Every class's header names its columns: split on tabs after the `#`, it gives the
      keys in order. */
  lemma {:induction false} TitleColumns(mode: Mode)
    ensures Split(TabTerminated(TsvKeys(mode)) + "", '\t') == TsvKeys(mode) + [""]
  {
    var keys := TsvKeys(mode);
    assert forall k :: 0 <= k < |keys| ==> '\t' !in keys[k];
    SplitTabTerminated(keys, "");
  }

  /** A row built for a report has one field per column of the header. */
  lemma {:induction false} RowMatchesTitle(mode: Mode, values: map<string, Json>, codec: Codec)
    requires NewResponseFormatter(mode, values, codec).Success?
    ensures var f := NewResponseFormatter(mode, values, codec).value;
            Row(f, codec, |f.tsvKeys|).Success? && |Row(f, codec, |f.tsvKeys|).value| == |TsvKeys(mode)|
  {
    var f := NewResponseFormatter(mode, values, codec).value;
    ReportArgumentsCoverKeys(mode, values, codec);
    RowTotal(f, codec, |f.tsvKeys|);
    RowLength(f, codec, |f.tsvKeys|);
  }

  /** With a value for every column, no column raises. */
  lemma {:induction false} RowTotal(f: ResponseFormatter, codec: Codec, n: nat)
    requires n <= |f.tsvKeys| && f.reportArguments.Some?
    requires forall k :: k in f.tsvKeys ==> ColumnSource(k) in f.reportArguments.value
    ensures Row(f, codec, n).Success?
  {
    if n > 0 {
      RowTotal(f, codec, n - 1);
      assert f.tsvKeys[n - 1] in f.tsvKeys;
    }
  }

  /** `to_tsv`: one field per key, each followed by a tab, in key order. */
  method ToTsv(f: ResponseFormatter, codec: Codec) returns (r: Result<string, PyError>)
    ensures r.Success? <==> Row(f, codec, |f.tsvKeys|).Success?
    ensures r.Success? ==> r.value == TabTerminated(Row(f, codec, |f.tsvKeys|).value)
  {
    var output := "";
    ghost var fields: seq<string> := [];
    var i := 0;
    while i < |f.tsvKeys|
      invariant 0 <= i <= |f.tsvKeys|
      invariant Row(f, codec, i) == Success(fields)
      invariant output == TabTerminated(fields)
    {
      var key := f.tsvKeys[i];
      if key == "input_messages" {
        key := "messages";
      }
      var value := Lookup(f.reportArguments, key);
      if value.Failure? {
        RowKeepsFailure(f, codec, i + 1, |f.tsvKeys|);
        return Failure(value.error);
      }
      var shown := Show(value.value, codec);
      assert (fields + [shown])[..|fields|] == fields;
      output := output + shown + "\t";
      fields := fields + [shown];
      i := i + 1;
    }
    r := Success(output);
  }

  /** A row that raised at some column raises the same way for the whole key list. */
  lemma {:induction false} RowKeepsFailure(f: ResponseFormatter, codec: Codec, i: nat, n: nat)
    requires i <= n <= |f.tsvKeys| && Row(f, codec, i).Failure?
    ensures Row(f, codec, n) == Row(f, codec, i)
    decreases n - i
  {
    if i < n {
      RowKeepsFailure(f, codec, i, n - 1);
    }
  }

  /** `get_tsv_title`: `#`, then each key followed by a tab. */
  method GetTsvTitle(f: ResponseFormatter) returns (title: string)
    ensures title == "#" + TabTerminated(f.tsvKeys)
  {
    title := "#";
    var i := 0;
    while i < |f.tsvKeys|
      invariant 0 <= i <= |f.tsvKeys|
      invariant title == "#" + TabTerminated(f.tsvKeys[..i])
    {
      assert f.tsvKeys[..i + 1][..i] == f.tsvKeys[..i];
      title := title + f.tsvKeys[i] + "\t";
      i := i + 1;
    }
    assert f.tsvKeys[..i] == f.tsvKeys;
  }
}
