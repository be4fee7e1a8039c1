/**
 * Preparing a language model's reply for `JSON.parse`: trim it, drop a Markdown code
 * fence around it, and keep the text from the first '{' through the last '}'. The field
 * extractor and the declaration extractor prepare replies the same way.
 */
module AiResponse {
  import opened Wrappers
  import opened Strings

  const NoJsonError := "AI 返回内容中未找到有效的 JSON"

  /** The error thrown when the prepared text is not valid JSON. */
  const ParseError := "解析 AI 返回数据失败"

  /** The trimmed reply without a leading ```json (else ```) and without a trailing ```. */
  function Unfenced(responseText: string): (u: string)
    ensures |u| <= |responseText|
  {
    var t := Trim(responseText);
    var open := if StartsWith(t, "```json") then t[7..] else if StartsWith(t, "```") then t[3..] else t;
    if EndsWith(open, "```") then open[..|open| - 3] else open
  }

  /** `s.substring(a, b)` on in-range arguments: JavaScript swaps them when `a > b`. */
  function Substring(s: string, a: nat, b: nat): (r: string)
    requires a <= |s| && b <= |s|
    ensures a <= b ==> r == s[a..b]
    ensures b < a ==> r == s[b..a]
  {
    if a <= b then s[a..b] else s[b..a]
  }

  /** The slice from the first '{' through the last '}', or the error thrown when either is missing. */
  function BraceSlice(s: string): (r: Result<string, string>)
    ensures r.Err? <==> '{' !in s || '}' !in s
    ensures r.Err? ==> r.error == NoJsonError
    ensures r.Ok? && IndexOf(s, '{') < LastIndexOf(s, '}') ==>
      (&& |r.value| >= 2 && r.value[0] == '{' && r.value[|r.value| - 1] == '}'
       && '{' !in s[..IndexOf(s, '{')] && '}' !in s[LastIndexOf(s, '}') + 1..])
  {
    var first := IndexOf(s, '{');
    var last := LastIndexOf(s, '}');
    if first == -1 || last == -1 then Err(NoJsonError)
    else Ok(Substring(s, first, last + 1))
  }

  /** The text preparation of `parseExtractionResponse` and `parseAIResponse`, step by step. */
  method PrepareJsonText(responseText: string) returns (r: Result<string, string>)
    ensures r == BraceSlice(Unfenced(responseText))
  {
    var jsonStr := StripFences(responseText);
    var firstBrace := IndexOf(jsonStr, '{');
    var lastBrace := LastIndexOf(jsonStr, '}');
    if firstBrace == -1 || lastBrace == -1 {
      return Err(NoJsonError);
    }
    jsonStr := Substring(jsonStr, firstBrace, lastBrace + 1);
    return Ok(jsonStr);
  }

  /** The trim and fence removal of the preparation. */
  method StripFences(responseText: string) returns (jsonStr: string)
    ensures jsonStr == Unfenced(responseText)
  {
    jsonStr := Trim(responseText);
    if StartsWith(jsonStr, "```json") {
      jsonStr := jsonStr[7..];
    } else if StartsWith(jsonStr, "```") {
      jsonStr := jsonStr[3..];
    }
    if EndsWith(jsonStr, "```") {
      jsonStr := jsonStr[..|jsonStr| - 3];
    }
  }

  /** A text with no white space at either end is its own trim. */
  lemma TrimKeeps(s: string)
    requires |s| > 0 && !IsSpace(s[0]) && !IsSpace(s[|s| - 1])
    ensures Trim(s) == s
  {
  }

  /** The first '{' of `pre + obj + post` is the first of `obj`, when `pre` has none. */
  lemma FirstBraceOf(pre: string, obj: string, post: string)
    requires |obj| > 0 && obj[0] == '{' && '{' !in pre
    ensures IndexOf(pre + obj + post, '{') == |pre|
  {
    var s := pre + obj + post;
    var r := IndexOf(s, '{');
    assert s[|pre|] == '{';
  }

  /** The last '}' of `pre + obj + post` is the last of `obj`, when `post` has none. */
  lemma LastBraceOf(pre: string, obj: string, post: string)
    requires |obj| > 0 && obj[|obj| - 1] == '}' && '}' !in post
    ensures LastIndexOf(pre + obj + post, '}') == |pre| + |obj| - 1
  {
    var s := pre + obj + post;
    var k := |pre| + |obj| - 1;
    var r := LastIndexOf(s, '}');
    assert s[k] == '}';
  }

  /** A ```json fence around a text is dropped. */
  lemma UnfenceJson(body: string)
    ensures Unfenced("```json" + body + "```") == body
  {
    var s := "```json" + body + "```";
    TrimKeeps(s);
    assert StartsWith(s, "```json");
    var open := s[7..];
    assert open == body + "```";
    assert EndsWith(open, "```");
    assert open[..|open| - 3] == body;
  }

  /** The brace slice of `pre + obj + post` is `obj` when the object is the outermost brace pair. */
  lemma BraceSliceOf(obj: string, pre: string, post: string)
    requires |obj| >= 2 && obj[0] == '{' && obj[|obj| - 1] == '}'
    requires '{' !in pre && '}' !in post
    ensures BraceSlice(pre + obj + post) == Ok(obj)
  {
    FirstBraceOf(pre, obj, post);
    LastBraceOf(pre, obj, post);
    assert (pre + obj + post)[|pre|..|pre| + |obj|] == obj;
  }

  /**
   * A JSON object wrapped in a ```json fence, with any text free of braces between
   * the fences and the object, comes out as the object.
   */
  lemma FencedObjectRoundTrip(obj: string, pre: string, post: string)
    requires |obj| >= 2 && obj[0] == '{' && obj[|obj| - 1] == '}'
    requires '{' !in pre && '}' !in post
    ensures BraceSlice(Unfenced("```json" + pre + obj + post + "```")) == Ok(obj)
  {
    UnfenceJson(pre + obj + post);
    assert "```json" + pre + obj + post + "```" == "```json" + (pre + obj + post) + "```";
    BraceSliceOf(obj, pre, post);
  }

  /** A '}' before every '{' makes the two positions swap: the slice between them is kept. */
  lemma ClosingBeforeOpening()
    ensures BraceSlice("}x{") == Ok("x")
  {
    assert IndexOf("}x{", '{') == 2;
    assert LastIndexOf("}x{", '}') == 0;
    assert "}x{"[1..2] == "x";
  }
}
