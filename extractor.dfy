/** Reading the model's answer out of a result dict: `_extract_text` finds
    the text in a Responses-style `output` list, falls back to a chat-style
    `choices` list, or takes a plain string payload; `decode_json_from_response`
    parses that text as a JSON object, retrying without markdown code fences. */
module Extractor {
  import opened Optional
  import opened Strings
  import opened Json
  import opened Http

  /** A result dict as `Reply` values are seen by a caller: only the keys the
      dict has. */
  function AsDict(r: Reply): (d: map<string, Json>)
    ensures "success" in d && d["success"] == JBool(r.success)
    ensures r.data.Some? <==> "data" in d
    ensures r.data.Some? ==> d["data"] == r.data.value
    ensures r.response.Some? <==> "response" in d
    ensures r.response.Some? ==> d["response"] == r.response.value
  {
    var d := map["success" := JBool(r.success)];
    var d := if r.status.Some? then d["status" := JNum(r.status.value)] else d;
    var d := if r.error.Some? then d["error" := r.error.value] else d;
    var d := if r.message.Some? then d["message" := JStr(r.message.value)] else d;
    var d := if r.data.Some? then d["data" := r.data.value] else d;
    if r.response.Some? then d["response" := r.response.value] else d
  }

  /** Where the text is looked for: the `data` of a successful result, the
      `response` of a failed one (None when absent). */
  function PayloadOf(response: map<string, Json>): Json {
    if Truthy(Get(response, "success")) then Get(response, "data") else Get(response, "response")
  }

  lemma PayloadOfReply(r: Reply)
    ensures PayloadOf(AsDict(r)) == (if r.success then r.data.GetOr(JNull) else r.response.GetOr(JNull))
  {
  }

  /** The text a content block contributes: its `text`, rendered with `str`,
      when it is a dict of type "output_text" with a truthy text. */
  function BlockText(block: Json): (r: string)
    ensures r != "" <==>
      block.JObj? && Get(block.fields, "type") == JStr("output_text") && Truthy(Get(block.fields, "text"))
  {
    if block.JObj? && Get(block.fields, "type") == JStr("output_text") && Truthy(Get(block.fields, "text"))
    then PyStr(block.fields["text"])
    else ""
  }

  /** The texts of the blocks, concatenated in order. */
  function BlocksText(blocks: seq<Json>): string
    decreases |blocks|
  {
    if blocks == [] then "" else BlocksText(blocks[..|blocks| - 1]) + BlockText(blocks[|blocks| - 1])
  }

  /** The text of one `output` entry: its content blocks' texts when it is a
      dict whose `content` is a list, otherwise nothing. */
  function EntryText(entry: Json): string {
    if entry.JObj? && Get(entry.fields, "content").JArr? then BlocksText(Get(entry.fields, "content").items)
    else ""
  }

  /** The text of an `output` list: the text of its first entry that has
      any. */
  function OutputText(entries: seq<Json>): string
    decreases |entries|
  {
    if entries == [] then ""
    else if EntryText(entries[0]) != "" then EntryText(entries[0])
    else OutputText(entries[1..])
  }

  /** The text of the payload's `output` list, if it has one. */
  function OutputTextOf(payload: map<string, Json>): string {
    var output := Get(payload, "output");
    if output.JArr? then OutputText(output.items) else ""
  }

  /** The chat-style fallback AS WRITTEN: None stands for the AttributeError
      raised when the first choice is not a dict. */
  function ChoiceTextAsWritten(payload: map<string, Json>): Option<string> {
    var choices := Get(payload, "choices");
    if !(choices.JArr? && choices.items != []) then Some("")
    else if !choices.items[0].JObj? then None
    else
      var message := Get(choices.items[0].fields, "message");
      if message.JObj? && Truthy(Get(message.fields, "content")) then Some(PyStr(message.fields["content"]))
      else Some("")
  }

  /** The chat-style fallback as evidently intended: the first choice's
      message content, and nothing when the first choice is not a dict. */
  function ChoiceText(payload: map<string, Json>): string {
    var choices := Get(payload, "choices");
    if !(choices.JArr? && choices.items != [] && choices.items[0].JObj?) then ""
    else
      var message := Get(choices.items[0].fields, "message");
      if message.JObj? && Truthy(Get(message.fields, "content")) then PyStr(message.fields["content"])
      else ""
  }

  /** `_extract_text` AS WRITTEN; None stands for the exception. */
  function ExtractedTextAsWritten(response: map<string, Json>): Option<string> {
    var payload := PayloadOf(response);
    if payload.JObj? && OutputTextOf(payload.fields) != "" then Some(OutputTextOf(payload.fields))
    else if payload.JObj? then ChoiceTextAsWritten(payload.fields)
    else if payload.JStr? then Some(payload.s)
    else Some("")
  }

  /** `_extract_text` as evidently intended: it never raises. */
  function ExtractedText(response: map<string, Json>): string {
    var payload := PayloadOf(response);
    if payload.JObj? && OutputTextOf(payload.fields) != "" then OutputTextOf(payload.fields)
    else if payload.JObj? then ChoiceText(payload.fields)
    else if payload.JStr? then payload.s
    else ""
  }

  /** The inner loop of `_extract_text`: the texts of one entry's content
      blocks, accumulated in order. */
  method ContentText(blocks: seq<Json>) returns (combined: string)
    ensures combined == BlocksText(blocks)
  {
    combined := "";
    for j := 0 to |blocks|
      invariant combined == BlocksText(blocks[..j])
    {
      assert blocks[..j + 1][..j] == blocks[..j];
      var block := blocks[j];
      if block.JObj? && Get(block.fields, "type") == JStr("output_text") && Truthy(Get(block.fields, "text")) {
        combined := combined + PyStr(block.fields["text"]);
      }
    }
    assert blocks[..|blocks|] == blocks;
  }

  /** The outer loop of `_extract_text`: the text of the first `output` entry
      that has any. The accumulated text is still empty whenever an entry
      starts, since a non-empty one is returned at once. */
  method OutputLoop(entries: seq<Json>) returns (combined: string)
    ensures combined == OutputText(entries)
  {
    combined := "";
    for i := 0 to |entries|
      invariant combined == ""
      invariant OutputText(entries[i..]) == OutputText(entries)
    {
      assert entries[i..][1..] == entries[i + 1..];
      var entry := entries[i];
      if entry.JObj? {
        var content := Get(entry.fields, "content");
        if content.JArr? {
          combined := ContentText(content.items);
        }
      }
      if combined != "" {
        return combined;
      }
    }
  }

  /** `_extract_text`. */
  method ExtractText(response: map<string, Json>) returns (text: string)
    ensures text == ExtractedText(response)
  {
    var payload := PayloadOf(response);
    if payload.JObj? {
      var output := Get(payload.fields, "output");
      if output.JArr? {
        var combined := OutputLoop(output.items);
        if combined != "" {
          return combined;
        }
      }
      var choices := Get(payload.fields, "choices");
      if choices.JArr? && choices.items != [] && choices.items[0].JObj? {
        var message := Get(choices.items[0].fields, "message");
        if message.JObj? && Truthy(Get(message.fields, "content")) {
          return PyStr(message.fields["content"]);
        }
      }
      return "";
    }
    if payload.JStr? {
      return payload.s;
    }
    return "";
  }

  /** One more block adds its text at the end. */
  lemma BlocksTextSnoc(a: seq<Json>, block: Json)
    ensures BlocksText(a + [block]) == BlocksText(a) + BlockText(block)
  {
    assert (a + [block])[..|a|] == a;
  }

  /** Block texts concatenate: the text of two runs of blocks is the text of
      the first followed by the text of the second. */
  lemma {:induction false} BlocksTextAppend(a: seq<Json>, b: seq<Json>)
    ensures BlocksText(a + b) == BlocksText(a) + BlocksText(b)
    decreases |b|
  {
    if b == [] {
      assert a + b == a;
    } else {
      var init := b[..|b| - 1];
      var last := b[|b| - 1];
      var ai := a + init;
      assert b == init + [last];
      assert a + b == ai + [last];
      BlocksTextAppend(a, init);
      BlocksTextSnoc(ai, last);
      BlocksTextSnoc(init, last);
      ConcatAssoc(BlocksText(a), BlocksText(init), BlockText(last));
    }
  }

  /** A block that is not an output_text block with text contributes
      nothing, wherever it stands. */
  lemma BlocksTextSkipsOtherBlocks(a: seq<Json>, block: Json, b: seq<Json>)
    requires BlockText(block) == ""
    ensures BlocksText(a + [block] + b) == BlocksText(a + b)
  {
    BlocksTextAppend(a + [block], b);
    BlocksTextAppend(a, [block]);
    BlocksTextAppend(a, b);
    assert [block][..0] == [];
    assert BlocksText([block]) == "";
    assert BlocksText(a + [block]) == BlocksText(a);
  }

  /** The output text is that of the first entry with text, and it is empty
      exactly when no entry has text. */
  lemma {:induction false} OutputTextFirstWithText(entries: seq<Json>, k: nat)
    requires k < |entries| && EntryText(entries[k]) != ""
    requires forall j :: 0 <= j < k ==> EntryText(entries[j]) == ""
    ensures OutputText(entries) == EntryText(entries[k])
    decreases k
  {
    if k > 0 {
      forall j | 0 <= j < k - 1 ensures EntryText(entries[1..][j]) == "" {
        assert entries[1..][j] == entries[j + 1];
      }
      OutputTextFirstWithText(entries[1..], k - 1);
    }
  }

  lemma {:induction false} OutputTextEmpty(entries: seq<Json>)
    ensures OutputText(entries) == "" <==> forall j :: 0 <= j < |entries| ==> EntryText(entries[j]) == ""
    decreases |entries|
  {
    if entries != [] {
      OutputTextEmpty(entries[1..]);
      if EntryText(entries[0]) == "" {
        forall j | 0 < j < |entries| ensures EntryText(entries[j]) == EntryText(entries[1..][j - 1]) {
        }
      }
    }
  }

  /** Entries after the first one with text are never looked at. */
  lemma {:induction false} OutputTextIgnoresLater(entries: seq<Json>, more: seq<Json>)
    requires OutputText(entries) != ""
    ensures OutputText(entries + more) == OutputText(entries)
    decreases |entries|
  {
    var all := entries + more;
    var first := entries[0];
    assert all[0] == first;
    if EntryText(first) == "" {
      var rest := entries[1..];
      assert all[1..] == rest + more;
      assert OutputText(all) == OutputText(rest + more);
      assert OutputText(entries) == OutputText(rest);
      OutputTextIgnoresLater(rest, more);
    } else {
      assert OutputText(all) == EntryText(first);
    }
  }

  /** An assistant message `{"content": [{"type": "output_text", "text": t}]}`. */
  function MessageEntry(text: string): Json {
    JObj(map["content" := JArr([JObj(map["type" := JStr("output_text"), "text" := JStr(text)])])])
  }

  lemma MessageEntryText(text: string)
    requires text != ""
    ensures EntryText(MessageEntry(text)) == text
  {
    var block := JObj(map["type" := JStr("output_text"), "text" := JStr(text)]);
    assert [block][..0] == [];
    assert BlocksText([block]) == BlockText(block);
  }

  /** Two messages "A" then "B": the text is "A" alone. */
  lemma OutputTextTwoMessages()
    ensures OutputText([MessageEntry("A"), MessageEntry("B")]) == "A"
  {
    MessageEntryText("A");
  }

  /** Where `_extract_text` takes its text from, in order of precedence. */
  lemma ExtractedFromOutput(response: map<string, Json>)
    requires PayloadOf(response).JObj? && OutputTextOf(PayloadOf(response).fields) != ""
    ensures ExtractedText(response) == OutputTextOf(PayloadOf(response).fields)
  {
  }

  lemma ExtractedFromChoices(response: map<string, Json>, first: map<string, Json>, message: map<string, Json>, rest: seq<Json>)
    requires PayloadOf(response).JObj?
    requires OutputTextOf(PayloadOf(response).fields) == ""
    requires Get(PayloadOf(response).fields, "choices") == JArr([JObj(first)] + rest)
    requires Get(first, "message") == JObj(message)
    requires Truthy(Get(message, "content"))
    ensures ExtractedText(response) == PyStr(message["content"])
  {
  }

  lemma ExtractedFromString(response: map<string, Json>)
    requires PayloadOf(response).JStr?
    ensures ExtractedText(response) == PayloadOf(response).s
  {
  }

  lemma ExtractedNothing(response: map<string, Json>)
    requires !PayloadOf(response).JObj? && !PayloadOf(response).JStr?
    ensures ExtractedText(response) == ""
  {
  }

  /** As written, a `choices` list whose first element is not a dict makes
      `_extract_text` raise instead of returning "". */
  lemma ExtractTextRaisesAsWritten()
    ensures ExtractedTextAsWritten(map["success" := JBool(true), "data" := JObj(map["choices" := JArr([JStr("x")])])]).None?
    ensures ExtractedText(map["success" := JBool(true), "data" := JObj(map["choices" := JArr([JStr("x")])])]) == ""
  {
    var payload := map["choices" := JArr([JStr("x")])];
    assert OutputTextOf(payload) == "";
  }

  /** Whenever the source does not raise, the intended version agrees with it. */
  lemma ExtractedTextAgrees(response: map<string, Json>)
    requires ExtractedTextAsWritten(response).Some?
    ensures ExtractedTextAsWritten(response).value == ExtractedText(response)
  {
  }

  /** The text with surrounding whitespace, a leading "```json" and a
      trailing "```" removed, trimmed again. */
  function FenceStripped(text: string): string {
    var s := Strip(text);
    var s := if StartsWith(s, "```json") then s[7..] else s;
    var s := if EndsWith(s, "```") then s[..|s| - 3] else s;
    Strip(s)
  }

  /** A block fenced as JSON is unwrapped to its trimmed contents. */
  lemma FenceStrippedJson(body: string)
    ensures FenceStripped("```json" + body + "```") == Strip(body)
  {
    var text := "```json" + body + "```";
    assert text[0] == '`' && text[|text| - 1] == '`';
    StripUnchanged(text);
    assert text[..7] == "```json";
    var s1 := text[7..];
    assert s1 == body + "```";
    assert s1[|s1| - 3..] == "```";
    assert s1[..|s1| - 3] == body;
  }

  /** A text without surrounding whitespace or fences is left as it is. */
  lemma FenceStrippedPlain(text: string)
    requires Strip(text) == text && !StartsWith(text, "```json") && !EndsWith(text, "```")
    ensures FenceStripped(text) == text
  {
  }

  /** `decode_json_from_response` on the extracted text: a dict parsed from the
      text itself, else from the fence-stripped text when that is non-empty
      and differs from the text; nothing else is accepted. */
  function DecodeJsonText(text: string, loads: string -> Option<Json>): (d: Option<map<string, Json>>)
    ensures d.Some? ==>
      && text != ""
      && (loads(text) == Some(JObj(d.value)) || loads(FenceStripped(text)) == Some(JObj(d.value)))
    ensures text != "" && loads(text).Some? && loads(text).value.JObj? ==> d == Some(loads(text).value.fields)
  {
    if text == "" then None
    else if loads(text).Some? && loads(text).value.JObj? then Some(loads(text).value.fields)
    else
      var stripped := FenceStripped(text);
      if stripped != "" && stripped != text && loads(stripped).Some? && loads(stripped).value.JObj?
      then Some(loads(stripped).value.fields)
      else None
  }

  /** A fenced JSON object that does not parse as it stands is decoded from
      inside the fence. */
  lemma DecodeFencedObject(body: string, loads: string -> Option<Json>, d: map<string, Json>)
    requires Strip(body) != ""
    requires var text := "```json" + body + "```"; !(loads(text).Some? && loads(text).value.JObj?)
    requires loads(Strip(body)) == Some(JObj(d))
    ensures DecodeJsonText("```json" + body + "```", loads) == Some(d)
  {
    FenceStrippedJson(body);
    var text := "```json" + body + "```";
    TrimStartSpec(body, Whitespace);
    TrimEndSpec(TrimStart(body, Whitespace), Whitespace);
    assert |Strip(body)| < |text|;
  }

  /** A plain text that does not parse to an object, such as a list or
      text that is not JSON at all, gives nothing: there is no fence to strip
      and no second try. */
  lemma DecodePlainNonObject(text: string, loads: string -> Option<Json>)
    requires text != "" && !(loads(text).Some? && loads(text).value.JObj?)
    requires Strip(text) == text && !StartsWith(text, "```json") && !EndsWith(text, "```")
    ensures DecodeJsonText(text, loads) == None
  {
    FenceStrippedPlain(text);
  }

  /** The fenced object "```json\n{"k":1}\n```" decodes to {"k": 1}. */
  lemma DecodeFencedExample(loads: string -> Option<Json>)
    requires loads("```json\n{\"k\":1}\n```") == None
    requires loads("{\"k\":1}") == Some(JObj(map["k" := JNum(1)]))
    ensures DecodeJsonText("```json\n{\"k\":1}\n```", loads) == Some(map["k" := JNum(1)])
  {
    var inner := "{\"k\":1}";
    var body := ['\n'] + inner + ['\n'];
    assert "```json" + body + "```" == "```json\n{\"k\":1}\n```";
    StripCharsDropsEnclosing('\n', inner, Whitespace);
    DecodeFencedObject(body, loads, map["k" := JNum(1)]);
  }

  /** "not json" and "[1,2,3]" give nothing. */
  lemma DecodePlainExamples(loads: string -> Option<Json>)
    requires loads("not json") == None
    requires loads("[1,2,3]") == Some(JArr([JNum(1), JNum(2), JNum(3)]))
    ensures DecodeJsonText("not json", loads) == None
    ensures DecodeJsonText("[1,2,3]", loads) == None
  {
    StripUnchanged("not json");
    StripUnchanged("[1,2,3]");
    DecodePlainNonObject("not json", loads);
    DecodePlainNonObject("[1,2,3]", loads);
  }

  /** `decode_json_from_response`. */
  method DecodeJsonFromResponse(response: map<string, Json>, loads: string -> Option<Json>)
    returns (d: Option<map<string, Json>>)
    ensures d == DecodeJsonText(ExtractedText(response), loads)
  {
    var text := ExtractText(response);
    if text == "" {
      return None;
    }
    var decoded := loads(text);
    if decoded.Some? && decoded.value.JObj? {
      return Some(decoded.value.fields);
    }
    var stripped := Strip(text);
    if StartsWith(stripped, "```json") {
      stripped := stripped[7..];
    }
    if EndsWith(stripped, "```") {
      stripped := stripped[..|stripped| - 3];
    }
    stripped := Strip(stripped);
    if stripped != "" && stripped != text {
      var again := loads(stripped);
      if again.Some? && again.value.JObj? {
        return Some(again.value.fields);
      }
      return None;
    }
    return None;
  }
}
