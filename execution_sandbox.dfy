/** The request screening of src/execution_sandbox/app.py: the language check, the scan for
    dangerous keywords, and the mapping from what the interpreter did to the reply. The
    interpreter itself (`subprocess.run` with its 5-second timeout) is an input: `run` gives
    what running a piece of code came to. */
module ExecutionSandbox {
  import opened Base
  import opened Text

  const DangerousKeywords: seq<string> := ["os", "subprocess", "shutil", "requests", "urllib", "socket"]
  const UnsupportedLanguage := "Unsupported language"
  const TimedOutMessage := "Execution timed out"

  /** What running the code came to: an exit with its code and captured output, the
      timeout, or any other exception with its text. */
  datatype RunOutcome =
    | Completed(returnCode: int, stdout: string, stderr: string)
    | TimedOut
    | Raised(message: string)

  /** The reply: a JSON `error` with a status, a finished run with its `status` text and
      output, or an exception outside the handler (a `code` that is not there), which
      the web framework turns into a bare 500. */
  datatype Response =
    | Rejected(status: nat, error: string)
    | Finished(status: nat, runStatus: string, stdout: string, stderr: string)
    | Crashed

  function DisallowedMessage(keyword: string): string
  {
    "Disallowed keyword '" + keyword + "' found in code."
  }

  /** CPython's text for the `TypeError` that `subprocess.run` raises when an element of
      its argument list is a list or a dict instead of text. */
  const NotTextHead := "expected str, bytes or os.PathLike object, not "

  function NotTextMessage(code: Json): string
  {
    NotTextHead + (if code.Arr? then "list" else "dict")
  }

  /** Whether Python's `keyword in code` is defined on the decoded `code` field: text, a
      list and a dict have `in`; `None` (a missing field or JSON null), a number and a
      boolean raise `TypeError`. */
  predicate Searchable(code: Json)
  {
    code.Str? || code.Arr? || code.Obj?
  }

  /** `keyword in code`: a substring test on text, an element test on a list, a key test on
      a dict. */
  predicate Occurs(code: Json, keyword: string)
  {
    match code
    case Str(s) => Contains(s, keyword)
    case Arr(items) => Str(keyword) in items
    case Obj(fields) => keyword in fields
    case _ => false
  }

  /** The position in `keywords` of the first one that occurs in `code`. */
  function FirstOccurring(code: Json, keywords: seq<string>): (r: Option<nat>)
    ensures r.Some? ==>
      r.value < |keywords| && Occurs(code, keywords[r.value])
      && forall j :: 0 <= j < r.value ==> !Occurs(code, keywords[j])
    ensures r.None? ==> forall j :: 0 <= j < |keywords| ==> !Occurs(code, keywords[j])
  {
    if keywords == [] then None
    else if Occurs(code, keywords[0]) then Some(0)
    else
      match FirstOccurring(code, keywords[1..])
      case None => None
      case Some(i) => Some(i + 1)
  }

  /** The reply for a run that took place. */
  function RunResponse(o: RunOutcome): Response
  {
    match o
    case Completed(rc, out, err) =>
      if rc == 0 then Finished(200, "success", out, err) else Finished(400, "error", out, err)
    case TimedOut => Rejected(408, TimedOutMessage)
    case Raised(m) => Rejected(500, m)
  }

  /** Whether a request gets as far as the interpreter. */
  predicate Runs(language: Json, code: Json)
  {
    language == Str("python") && code.Str? && FirstOccurring(code, DangerousKeywords).None?
  }

  /** `execute_code` on the request's `language` and `code` fields; a missing `code` is
      `Null`, as `data.get('code')` reads it. A `code` without `in` fails the first keyword
      test, outside the `try`; a list or dict that passes the scan fails inside it, when
      `subprocess.run` meets it. */
  function Execute(language: Json, code: Json, run: string -> RunOutcome): Response
  {
    if language != Str("python") then Rejected(400, UnsupportedLanguage)
    else if !Searchable(code) then Crashed
    else
      match FirstOccurring(code, DangerousKeywords)
      case Some(i) => Rejected(400, DisallowedMessage(DangerousKeywords[i]))
      case None =>
        if code.Str? then RunResponse(run(code.s)) else Rejected(500, NotTextMessage(code))
  }

  /** The `for` loop over the keyword list, left at the first keyword that occurs. */
  method ScanKeywords(code: Json, keywords: seq<string>) returns (hit: Option<nat>)
    ensures hit == FirstOccurring(code, keywords)
  {
    var i := 0;
    while i < |keywords|
      invariant 0 <= i <= |keywords|
      invariant forall j :: 0 <= j < i ==> !Occurs(code, keywords[j])
    {
      if Occurs(code, keywords[i]) {
        return Some(i);
      }
      i := i + 1;
    }
    return None;
  }

  /** The handler, with its scan over the keyword list and early return. `ran` is the code
      handed to the interpreter, if any was. */
  method ExecuteCode(language: Json, code: Json, run: string -> RunOutcome)
    returns (r: Response, ran: Option<string>)
    ensures r == Execute(language, code, run)
    ensures ran.Some? <==> Runs(language, code)
    ensures ran.Some? ==> code == Str(ran.value)
  {
    ran := None;
    if language != Str("python") {
      return Rejected(400, UnsupportedLanguage), None;
    }
    // The keyword list is not empty, so a `code` without `in` raises at the first test.
    if !Searchable(code) {
      return Crashed, None;
    }
    var hit := ScanKeywords(code, DangerousKeywords);
    if hit.Some? {
      return Rejected(400, DisallowedMessage(DangerousKeywords[hit.value])), None;
    }
    if !code.Str? {
      return Rejected(500, NotTextMessage(code)), None;
    }
    var outcome := run(code.s);
    ran := Some(code.s);
    match outcome {
      case Completed(rc, out, err) =>
        if rc == 0 {
          r := Finished(200, "success", out, err);
        } else {
          r := Finished(400, "error", out, err);
        }
      case TimedOut =>
        r := Rejected(408, TimedOutMessage);
      case Raised(m) =>
        r := Rejected(500, m);
    }
  }

  // ---------------------------------------------------------------------------

  /** Any language but "python" is refused with 400 whatever the code, dangerous or not. */
  lemma LanguageCheckedFirst(language: Json, code: Json, run: string -> RunOutcome)
    requires language != Str("python")
    ensures Execute(language, code, run) == Rejected(400, "Unsupported language")
    ensures !Runs(language, code)
  {
  }

  /** A `code` in which some dangerous keyword occurs is refused with 400, naming the
      earliest such keyword of the list. */
  lemma RejectsFirstKeyword(code: Json, run: string -> RunOutcome, i: nat)
    requires i < |DangerousKeywords| && Occurs(code, DangerousKeywords[i])
    ensures exists k ::
              0 <= k <= i && Occurs(code, DangerousKeywords[k])
              && (forall j :: 0 <= j < k ==> !Occurs(code, DangerousKeywords[j]))
              && Execute(Str("python"), code, run) == Rejected(400, DisallowedMessage(DangerousKeywords[k]))
  {
    var k := FirstOccurring(code, DangerousKeywords).value;
    assert k <= i;
  }

  /** A request reaches the interpreter exactly when it is Python code, as text, in which no
      keyword of the list occurs as a substring; a request that does not is answered the
      same whatever the interpreter would have done. */
  lemma OnlyCleanCodeRuns(language: Json, code: Json, run1: string -> RunOutcome, run2: string -> RunOutcome)
    ensures Runs(language, code) <==>
      language == Str("python") && code.Str?
      && forall k :: k in DangerousKeywords ==> !Contains(code.s, k)
    ensures !Runs(language, code) ==> Execute(language, code, run1) == Execute(language, code, run2)
  {
    if language == Str("python") && code.Str? && FirstOccurring(code, DangerousKeywords).Some? {
      var i := FirstOccurring(code, DangerousKeywords).value;
      assert DangerousKeywords[i] in DangerousKeywords;
    }
  }

  /** A `code` that is not text never runs. Without `in` (a missing field, null, a number,
      a boolean) the request fails outside the handler; a list is scanned element by
      element and a dict key by key, and one that passes the scan gets 500 with the
      `TypeError` of `subprocess.run`. */
  lemma NonTextCode(code: Json, run: string -> RunOutcome)
    requires !code.Str?
    ensures !Runs(Str("python"), code)
    ensures !Searchable(code) ==> Execute(Str("python"), code, run) == Crashed
    ensures Searchable(code) && (forall k :: k in DangerousKeywords ==> !Occurs(code, k)) ==>
      Execute(Str("python"), code, run) == Rejected(500, NotTextMessage(code))
    ensures code.Arr? ==>
      (Execute(Str("python"), code, run).status == 400 <==> exists k :: k in DangerousKeywords && Str(k) in code.items)
  {
    if Searchable(code) && FirstOccurring(code, DangerousKeywords).Some? {
      var i := FirstOccurring(code, DangerousKeywords).value;
      assert DangerousKeywords[i] in DangerousKeywords;
    }
    if code.Arr? && exists k :: k in DangerousKeywords && Str(k) in code.items {
      var k :| k in DangerousKeywords && Str(k) in code.items;
      var i :| 0 <= i < |DangerousKeywords| && DangerousKeywords[i] == k;
      assert Occurs(code, DangerousKeywords[i]);
    }
  }

  /** A list holding the element "os" is refused naming it; a list whose only element merely
      contains "os" passes the scan and fails when run. */
  lemma ListCodeExamples(run: string -> RunOutcome, line: string)
    requires line == "import os"
    ensures Execute(Str("python"), Arr([Str("os")]), run) == Rejected(400, DisallowedMessage("os"))
    ensures Execute(Str("python"), Arr([Str(line)]), run) == Rejected(500, NotTextHead + "list")
  {
    var listed := Arr([Str(line)]);
    forall k | k in DangerousKeywords
      ensures !Occurs(listed, k)
    {
      assert |k| != |line|;
    }
    NonTextCode(listed, run);
  }

  /** A run that exits 0 is a 200 "success" and any other exit a 400 "error", both with the
      captured output; a timeout is a 408 and any other exception a 500 with its text. */
  lemma RunStatusMapping(code: string, run: string -> RunOutcome)
    requires Runs(Str("python"), Str(code))
    ensures var o := run(code);
      var r := Execute(Str("python"), Str(code), run);
      (o.Completed? ==> r.Finished? && r.stdout == o.stdout && r.stderr == o.stderr
                        && (r.status == 200 <==> o.returnCode == 0)
                        && (r.runStatus == "success" <==> o.returnCode == 0)
                        && (o.returnCode != 0 ==> r.status == 400 && r.runStatus == "error"))
      && (o.TimedOut? ==> r == Rejected(408, "Execution timed out"))
      && (o.Raised? ==> r == Rejected(500, o.message))
  {
  }
}
