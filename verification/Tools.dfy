/** Tool calls, tool results, the registry and the constructed tool runtime. */
module Tools {
  import opened Protocol

  /** Unicode White_Space, the characters that `str::trim` removes. */
  predicate IsWhitespace(c: char) {
    || '\t' <= c <= '\r'
    || c == ' '
    || c == '\U{0085}' || c == '\U{00A0}' || c == '\U{1680}'
    || '\U{2000}' <= c <= '\U{200A}'
    || c == '\U{2028}' || c == '\U{2029}' || c == '\U{202F}' || c == '\U{205F}' || c == '\U{3000}'
  }

  predicate Blank(s: string) {
    forall i :: 0 <= i < |s| ==> IsWhitespace(s[i])
  }

  function TrimmedStart(s: string): string {
    if s != "" && IsWhitespace(s[0]) then TrimmedStart(s[1..]) else s
  }

  function TrimmedEnd(s: string): string {
    if s != "" && IsWhitespace(s[|s| - 1]) then TrimmedEnd(s[..|s| - 1]) else s
  }

  /** A string is blank exactly if nothing is left of it after trimming both ends. */
  lemma BlankIffTrimsAway(s: string)
    ensures Blank(s) <==> TrimmedEnd(TrimmedStart(s)) == ""
  {
    TrimStops(s);
    var rest := TrimmedStart(s);
    if rest != "" { EndKeepsFirst(rest); }
  }

  lemma {:induction false} TrimStops(s: string)
    ensures Blank(s) <==> TrimmedStart(s) == ""
    ensures TrimmedStart(s) != "" ==> !IsWhitespace(TrimmedStart(s)[0])
  {
    if s != "" && IsWhitespace(s[0]) {
      TrimStops(s[1..]);
      assert s == [s[0]] + s[1..];
    }
  }

  lemma {:induction false} EndKeepsFirst(s: string)
    requires s != "" && !IsWhitespace(s[0])
    ensures TrimmedEnd(s) != ""
  {
    if IsWhitespace(s[|s| - 1]) { EndKeepsFirst(s[..|s| - 1]); }
  }

  datatype ToolCall = ToolCall(toolUseId: string, name: string, input: Json)

  datatype ToolContent = PlainText(text: string) | JsonContent(value: Json)

  datatype ToolCancellationReason = ReasonUser | ReasonParent | ReasonHook | ReasonDisposed

  datatype ToolResultStatus =
    | Succeeded
    | Failed(retryable: bool)
    | InvalidArguments
    | UnknownTool
    | Denied
    | Cancelled(reason: ToolCancellationReason)
    | OutcomeUnknown

  datatype ToolResult = ToolResult(toolUseId: string, name: string, status: ToolResultStatus, content: ToolContent)

  function WithStatus(call: ToolCall, status: ToolResultStatus, content: ToolContent): ToolResult {
    ToolResult(call.toolUseId, call.name, status, content)
  }

  /** A result answers a call when it carries the call's id and name. */
  predicate Answers(result: ToolResult, call: ToolCall) {
    result.toolUseId == call.toolUseId && result.name == call.name
  }

  predicate WellNamed(call: ToolCall) {
    !Blank(call.toolUseId) && !Blank(call.name)
  }

  predicate DistinctIds(calls: seq<ToolCall>) {
    forall i, j :: 0 <= i < j < |calls| ==> calls[i].toolUseId != calls[j].toolUseId
  }
}
