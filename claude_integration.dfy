/**
 * Response shaping around the model conversation (backend/claude_integration.py):
 * stripping a Markdown code fence from the reply, the bounded `fetch_data` tool
 * loop, and the fixed three-key result with its fallbacks. The model API, the
 * data handler and the JSON parser are parameters.
 */
module ClaudeIntegration {
  import opened Wrappers
  import opened Sequences

  // ---------------------------------------------------------------------------
  // Whitespace and fences
  // ---------------------------------------------------------------------------

  /**
   * Python's notion of a whitespace character, shared by `str.strip()` and the
   * `\s` class of `re` on `str` patterns.
   */
  predicate IsSpace(c: char) {
    || ('\U{9}' <= c <= '\U{D}')
    || ('\U{1C}' <= c <= '\U{20}')
    || c == '\U{85}' || c == '\U{A0}' || c == '\U{1680}'
    || ('\U{2000}' <= c <= '\U{200A}')
    || c == '\U{2028}' || c == '\U{2029}' || c == '\U{202F}' || c == '\U{205F}' || c == '\U{3000}'
  }

  /** `s` has no whitespace at either end. */
  predicate Trimmed(s: string) {
    s == [] || (!IsSpace(s[0]) && !IsSpace(s[|s| - 1]))
  }

  /** `s` consists of whitespace only. */
  predicate AllSpace(s: string) {
    forall i :: 0 <= i < |s| ==> IsSpace(s[i])
  }

  /** `s` with its leading whitespace removed. */
  function TrimStart(s: string): (r: string)
    ensures |r| <= |s|
    ensures r == [] || !IsSpace(r[0])
  {
    if s != [] && IsSpace(s[0]) then TrimStart(s[1..]) else s
  }

  /** `s` with its trailing whitespace removed. */
  function TrimEnd(s: string): (r: string)
    ensures |r| <= |s|
    ensures r == [] || !IsSpace(r[|r| - 1])
  {
    if s != [] && IsSpace(s[|s| - 1]) then TrimEnd(s[..|s| - 1]) else s
  }

  /** What `TrimStart` keeps is a suffix of its input. */
  lemma {:induction false} TrimStartSuffix(s: string)
    ensures TrimStart(s) == s[|s| - |TrimStart(s)|..]
  {
    if s != [] && IsSpace(s[0]) {
      TrimStartSuffix(s[1..]);
      assert s[1..][|s| - 1 - |TrimStart(s)|..] == s[|s| - |TrimStart(s)|..];
    }
  }

  /** What `TrimEnd` keeps is a prefix of its input. */
  lemma {:induction false} TrimEndPrefix(s: string)
    ensures TrimEnd(s) == s[..|TrimEnd(s)|]
  {
    if s != [] && IsSpace(s[|s| - 1]) {
      TrimEndPrefix(s[..|s| - 1]);
      assert s[..|s| - 1][..|TrimEnd(s)|] == s[..|TrimEnd(s)|];
    }
  }

  /** `str.strip()`. */
  function Strip(s: string): (r: string)
    ensures |r| <= |s|
  {
    TrimEnd(TrimStart(s))
  }

  const Fence := "```"

  predicate EndsWith(s: string, suffix: string) {
    |suffix| <= |s| && s[|s| - |suffix|..] == suffix
  }

  /**
   * `re.sub(r"^```(?:json)?\s*", "", t)`: a fence at the very start, with an
   * optional `json` tag and the whitespace after it, is removed.
   */
  function DropOpenFence(t: string): (r: string)
    ensures |r| <= |t|
    ensures !IsPrefixOf(Fence, t) ==> r == t
  {
    if IsPrefixOf(Fence, t) then
      var u := t[3..];
      TrimStart(if IsPrefixOf("json", u) then u[4..] else u)
    else t
  }

  /**
   * `re.sub(r"\s*```$", "", t)`: a fence at the end, with the whitespace before it,
   * is removed. `$` also matches just before a final newline, which then stays.
   */
  function DropCloseFence(t: string): (r: string)
    ensures |r| <= |t|
    ensures !EndsWith(t, Fence) && !EndsWith(t, Fence + "\n") ==> r == t
  {
    if EndsWith(t, Fence) then TrimEnd(t[..|t| - 3])
    else if |t| >= 4 && t[|t| - 1] == '\n' && EndsWith(t[..|t| - 1], Fence) then TrimEnd(t[..|t| - 4]) + "\n"
    else t
  }

  /** The text `_extract_json` hands to the JSON parser. */
  function ExtractFences(text: string): (r: string)
    ensures |r| <= |text|
  {
    Strip(DropCloseFence(DropOpenFence(Strip(text))))
  }

  /** Stripping keeps a slice of its input, starting at offset `k`. */
  lemma StripSlice(s: string) returns (k: nat)
    ensures k + |Strip(s)| <= |s| && Strip(s) == s[k..k + |Strip(s)|]
  {
    var a := TrimStart(s);
    var b := TrimEnd(a);
    k := |s| - |a|;
    TrimStartSuffix(s);
    TrimEndPrefix(a);
    assert a == s[k..];
    assert b == a[..|b|];
    assert s[k..][..|b|] == s[k..k + |b|];
  }

  /** Stripped text has no whitespace at either end. */
  lemma StripTrims(s: string)
    ensures Trimmed(Strip(s))
  {
    var a := TrimStart(s);
    var b := TrimEnd(a);
    if b != [] {
      TrimEndPrefix(a);
      assert b == a[..|b|];
      assert b[0] == a[0];
    }
  }

  /** A slice of a slice is a slice. */
  lemma SliceOfSlice(s: string, i: nat, j: nat, i': nat, j': nat)
    requires i <= j <= |s| && i' <= j' <= j - i
    ensures s[i..j][i'..j'] == s[i + i'..i + j']
  {
    assert |s[i..j][i'..j']| == j' - i';
    forall k | 0 <= k < j' - i' ensures s[i..j][i'..j'][k] == s[i + i'..i + j'][k] {
      assert s[i..j][i'..j'][k] == s[i..j][i' + k];
    }
  }

  /** A part `u` at offset `k` of the slice `s[i..j]` is the part at offset `i + k` of `s`. */
  lemma PartOfSlice(s: string, i: nat, t: string, k: nat, u: string)
    requires i + |t| <= |s| && t == s[i..i + |t|]
    requires k + |u| <= |t| && u == t[k..k + |u|]
    ensures u == s[i + k..i + k + |u|]
  {
    SliceOfSlice(s, i, i + |t|, k, k + |u|);
  }

  /** The open-fence rewrite keeps a suffix; on trimmed text that suffix does not end in whitespace. */
  lemma DropOpenSuffix(t: string)
    ensures |DropOpenFence(t)| <= |t| && DropOpenFence(t) == t[|t| - |DropOpenFence(t)|..]
    ensures Trimmed(t) ==> DropOpenFence(t) == [] || !IsSpace(DropOpenFence(t)[|DropOpenFence(t)| - 1])
  {
    if IsPrefixOf(Fence, t) {
      var u := t[3..];
      var v := if IsPrefixOf("json", u) then u[4..] else u;
      var w := TrimStart(v);
      assert v == t[|t| - |v|..];
      TrimStartSuffix(v);
      assert w == v[|v| - |w|..];
      assert w == t[|t| - |w|..];
    } else {
      assert t == t[0..];
    }
  }

  /** On text with no trailing whitespace the close-fence rewrite keeps a prefix. */
  lemma DropClosePrefix(t: string)
    requires t == [] || !IsSpace(t[|t| - 1])
    ensures |DropCloseFence(t)| <= |t| && DropCloseFence(t) == t[..|DropCloseFence(t)|]
  {
    if EndsWith(t, Fence) {
      var r := TrimEnd(t[..|t| - 3]);
      TrimEndPrefix(t[..|t| - 3]);
      assert r == t[..|t| - 3][..|r|];
      assert r == t[..|r|];
    } else {
      assert t == t[..|t|];
    }
  }

  /** A suffix of a slice of `text` is a slice of `text` ending at the same place. */
  lemma SuffixOfSlice(text: string, k: nat, t: string, u: string) returns (i: nat)
    requires k + |t| <= |text| && t == text[k..k + |t|]
    requires |u| <= |t| && u == t[|t| - |u|..]
    ensures i + |u| <= |text| && u == text[i..i + |u|]
  {
    assert u == t[|t| - |u|..|t| - |u| + |u|];
    PartOfSlice(text, k, t, |t| - |u|, u);
    i := k + |t| - |u|;
  }

  /** Dropping an opening fence from a slice of `text` keeps a slice of `text`. */
  lemma OpenStageSlice(text: string, k: nat, s1: string, s2: string) returns (i: nat)
    requires k + |s1| <= |text| && s1 == text[k..k + |s1|]
    requires s2 == DropOpenFence(s1)
    ensures i + |s2| <= |text| && s2 == text[i..i + |s2|]
  {
    DropOpenSuffix(s1);
    i := SuffixOfSlice(text, k, s1, s2);
  }

  /** Stripping, then dropping an opening fence, leaves no trailing whitespace. */
  lemma OpenStageEnd(text: string)
    ensures var s2 := DropOpenFence(Strip(text)); s2 == [] || !IsSpace(s2[|s2| - 1])
  {
    StripTrims(text);
    DropOpenSuffix(Strip(text));
  }

  /** Dropping a closing fence from such a slice keeps a slice of `text` at the same offset. */
  lemma CloseStageSlice(text: string, i: nat, s2: string, s3: string)
    requires i + |s2| <= |text| && s2 == text[i..i + |s2|]
    requires s2 == [] || !IsSpace(s2[|s2| - 1])
    requires s3 == DropCloseFence(s2)
    ensures i + |s3| <= |text| && s3 == text[i..i + |s3|]
  {
    DropClosePrefix(s2);
    assert s3 == s2[0..0 + |s3|];
    PartOfSlice(text, i, s2, 0, s3);
  }

  /** Stripping a slice of `text` leaves a trimmed slice of `text`. */
  lemma StripOfSlice(text: string, s: string, i: nat) returns (j: nat)
    requires i + |s| <= |text| && s == text[i..i + |s|]
    ensures j + |Strip(s)| <= |text| && Strip(s) == text[j..j + |Strip(s)|]
    ensures Trimmed(Strip(s))
  {
    var k := StripSlice(s);
    PartOfSlice(text, i, s, k, Strip(s));
    j := i + k;
    StripTrims(s);
  }

  /**
   * The extracted text has no whitespace at either end, and it is a contiguous
   * part of the reply: only a prefix and a suffix were removed.
   */
  lemma ExtractFencesProperties(text: string)
    ensures Trimmed(ExtractFences(text))
    ensures exists i, j :: 0 <= i <= j <= |text| && ExtractFences(text) == text[i..j]
  {
    var s1 := Strip(text);
    var s2 := DropOpenFence(s1);
    var s3 := DropCloseFence(s2);
    var k := StripSlice(text);
    var i := OpenStageSlice(text, k, s1, s2);
    OpenStageEnd(text);
    CloseStageSlice(text, i, s2, s3);
    var j := StripOfSlice(text, s3, i);
    assert ExtractFences(text) == text[j..j + |Strip(s3)|];
  }

  lemma TrimStartPadded(w: string, t: string)
    requires AllSpace(w) && (t == [] || !IsSpace(t[0]))
    ensures TrimStart(w + t) == t
    decreases |w|
  {
    if w != [] {
      assert (w + t)[1..] == w[1..] + t;
      TrimStartPadded(w[1..], t);
    } else {
      assert w + t == t;
    }
  }

  lemma TrimEndPadded(t: string, w: string)
    requires AllSpace(w) && (t == [] || !IsSpace(t[|t| - 1]))
    ensures TrimEnd(t + w) == t
    decreases |w|
  {
    if w != [] {
      assert (t + w)[..|t + w| - 1] == t + w[..|w| - 1];
      TrimEndPadded(t, w[..|w| - 1]);
    } else {
      assert t + w == t;
    }
  }

  /** Trimming removes whitespace only: everything before the kept suffix is whitespace. */
  lemma {:induction false} TrimStartDropsSpace(s: string)
    ensures AllSpace(s[..|s| - |TrimStart(s)|])
  {
    if s != [] && IsSpace(s[0]) {
      TrimStartDropsSpace(s[1..]);
      var n := |s| - |TrimStart(s)|;
      forall i | 0 <= i < n ensures IsSpace(s[i]) {
        if i > 0 {
          assert s[i] == s[1..][..n - 1][i - 1];
        }
      }
    }
  }

  /** Everything after the kept prefix is whitespace. */
  lemma {:induction false} TrimEndDropsSpace(s: string)
    ensures AllSpace(s[|TrimEnd(s)|..])
  {
    if s != [] && IsSpace(s[|s| - 1]) {
      var init := s[..|s| - 1];
      TrimEndDropsSpace(init);
      var n := |TrimEnd(s)|;
      forall i | n <= i < |s| ensures IsSpace(s[i]) {
        if i < |s| - 1 {
          assert s[i] == init[n..][i - n];
        }
      }
    }
  }

  lemma {:induction false} TrimStartAllSpace(w: string)
    requires AllSpace(w)
    ensures TrimStart(w) == []
  {
    if w != [] {
      assert AllSpace(w[1..]) by {
        forall i | 0 <= i < |w[1..]| ensures IsSpace(w[1..][i]) {
          assert w[1..][i] == w[i + 1];
        }
      }
      TrimStartAllSpace(w[1..]);
    }
  }

  /** Stripping text that starts and ends with non-whitespace, padded with whitespace. */
  lemma StripPadded(w0: string, t: string, w1: string)
    requires AllSpace(w0) && AllSpace(w1) && Trimmed(t)
    ensures Strip(w0 + t + w1) == t
  {
    if t == [] {
      assert w0 + t + w1 == w0 + w1;
      assert AllSpace(w0 + w1);
      TrimStartAllSpace(w0 + w1);
    } else {
      assert w0 + t + w1 == w0 + (t + w1);
      TrimStartPadded(w0, t + w1);
      TrimEndPadded(t, w1);
    }
  }

  /** Text with no whitespace at either end is left alone by `strip`. */
  lemma StripTrimmed(s: string)
    requires Trimmed(s)
    ensures Strip(s) == s
  {
  }

  /**
   * The opening fence, its tag and the whitespace after it go. Without a tag the
   * optional group `(?:json)?` still takes a `json` right after the fence, so the
   * rest must not begin with one.
   */
  lemma OpenFenceDropped(tag: string, w: string, rest: string)
    requires AllSpace(w) && (rest == [] || !IsSpace(rest[0]))
    requires tag == "json" || (tag == "" && !IsPrefixOf("json", w + rest))
    ensures DropOpenFence(Fence + tag + w + rest) == rest
  {
    var t := Fence + tag + w + rest;
    assert t[..3] == Fence;
    var u := t[3..];
    assert u == tag + w + rest;
    if tag == "json" {
      assert u[..4] == "json";
      assert u[4..] == w + rest;
    } else {
      assert u == w + rest;
    }
    TrimStartPadded(w, rest);
  }

  /** A trimmed text that does not begin with `json` does not after whitespace and a fence are added either. */
  lemma NoJsonTagAfter(p: string, w: string)
    requires AllSpace(w) && !IsPrefixOf("json", p)
    ensures !IsPrefixOf("json", p + w + Fence)
  {
    var t := p + w + Fence;
    if |p| < 4 && |t| >= 4 {
      var i := |p|;
      assert t[i] == if i < |p + w| then w[i - |p|] else Fence[i - |p + w|];
      assert t[i] != "json"[i];
    } else if |p| >= 4 {
      assert t[..4] == p[..4];
    }
  }

  /** The closing fence and the whitespace before it go. */
  lemma CloseFenceDropped(front: string, w: string)
    requires AllSpace(w) && (front == [] || !IsSpace(front[|front| - 1]))
    ensures DropCloseFence(front + w + Fence) == front
  {
    var t := front + w + Fence;
    assert t[|t| - 3..] == Fence;
    assert t[..|t| - 3] == front + w;
    TrimEndPadded(front, w);
  }

  /**
   * `$` also matches just before a final newline: a closing fence followed by a
   * newline is removed together with the whitespace before it, and the newline stays.
   */
  lemma CloseFenceBeforeNewline(front: string, w: string)
    requires AllSpace(w) && (front == [] || !IsSpace(front[|front| - 1]))
    ensures DropCloseFence(front + w + Fence + "\n") == front + "\n"
  {
    var t := front + w + Fence + "\n";
    assert t[|t| - 1] == '\n' && t[|t| - 3..] != Fence;
    assert t[..|t| - 1] == front + w + Fence;
    assert t[..|t| - 4] == front + w;
    TrimEndPadded(front, w);
  }

  /** Between two fences, an empty body leaves nothing. */
  lemma EmptyBetweenFences(tag: string, w1: string, w2: string)
    requires AllSpace(w1) && AllSpace(w2)
    requires tag == "json" || tag == ""
    ensures DropCloseFence(DropOpenFence(Fence + tag + w1 + w2 + Fence)) == []
  {
    assert AllSpace(w1 + w2);
    assert Fence + tag + w1 + w2 + Fence == Fence + tag + (w1 + w2) + Fence;
    NoJsonTagAfter([], w1 + w2);
    assert [] + (w1 + w2) + Fence == w1 + w2 + Fence;
    OpenFenceDropped(tag, w1 + w2, Fence);
    assert Fence == [] + [] + Fence;
    CloseFenceDropped([], []);
  }

  /** Between two fences, a non-empty trimmed body is kept. */
  lemma BodyBetweenFences(tag: string, w1: string, body: string, w2: string)
    requires AllSpace(w1) && AllSpace(w2) && Trimmed(body) && body != []
    requires tag == "json" || (tag == "" && !IsPrefixOf("json", w1 + body))
    ensures DropCloseFence(DropOpenFence(Fence + tag + w1 + body + w2 + Fence)) == body
  {
    var rest := body + w2 + Fence;
    assert Fence + tag + w1 + body + w2 + Fence == Fence + tag + w1 + rest;
    assert rest[0] == body[0];
    if tag == "" {
      NoJsonTagAfter(w1 + body, w2);
      assert w1 + body + w2 + Fence == w1 + rest;
    }
    OpenFenceDropped(tag, w1, rest);
    CloseFenceDropped(body, w2);
  }

  /**
   * A fenced reply gives back its body: with whitespace around the fences and
   * after the `json` tag, or with no tag when the text after the fence does not
   * begin with `json`, the body comes out unchanged.
   */
  lemma FencedRoundTrip(w0: string, tag: string, w1: string, body: string, w2: string, w3: string)
    requires AllSpace(w0) && AllSpace(w1) && AllSpace(w2) && AllSpace(w3)
    requires Trimmed(body)
    requires tag == "json" || (tag == "" && !IsPrefixOf("json", w1 + body))
    ensures ExtractFences(w0 + (Fence + tag + w1 + body + w2 + Fence) + w3) == body
  {
    var inner := Fence + tag + w1 + body + w2 + Fence;
    var text := w0 + inner + w3;
    assert Strip(text) == inner by {
      StripPadded(w0, inner, w3);
    }
    assert DropCloseFence(DropOpenFence(inner)) == body by {
      if body == [] {
        assert inner == Fence + tag + w1 + w2 + Fence;
        EmptyBetweenFences(tag, w1, w2);
      } else {
        BodyBetweenFences(tag, w1, body, w2);
      }
    }
    ExtractInStages(text, inner, body);
  }

  /** `_extract_json`'s rewrites, one stage at a time. */
  lemma ExtractInStages(text: string, stripped: string, body: string)
    requires Strip(text) == stripped
    requires DropCloseFence(DropOpenFence(stripped)) == body
    requires Trimmed(body)
    ensures ExtractFences(text) == body
  {
    StripTrimmed(body);
  }

  /** A reply with no fence at either end is only trimmed. */
  lemma UnfencedIsTrimmed(text: string)
    requires !IsPrefixOf(Fence, Strip(text)) && !EndsWith(Strip(text), Fence)
    ensures ExtractFences(text) == Strip(text)
  {
    var s := Strip(text);
    StripTrims(text);
    assert DropOpenFence(s) == s;
    if |s| >= 4 && s[|s| - 1] == '\n' {
      assert IsSpace(s[|s| - 1]);
    }
    assert DropCloseFence(s) == s;
    StripTrimmed(s);
  }

  // ---------------------------------------------------------------------------
  // Messages and responses
  // ---------------------------------------------------------------------------

  /** The subset of JSON the parser produces. Numbers are kept as exact reals. */
  datatype Json =
    | JNull
    | JBool(b: bool)
    | JNum(n: real)
    | JStr(s: string)
    | JArr(items: seq<Json>)
    | JObj(fields: map<string, Json>)

  /** A content block of a model response. `Text` is the only kind with a `text` attribute. */
  datatype Block =
    | Text(text: string)
    | ToolUse(id: string, name: string, input: map<string, Json>)
    | OtherBlock

  datatype Response = Response(stopReason: string, content: seq<Block>)

  datatype ToolResult = ToolResult(toolUseId: string, content: string)

  /** A conversation message: the user's query, an assistant turn, or a user turn of tool results. */
  datatype Message =
    | UserText(text: string)
    | Assistant(content: seq<Block>)
    | ToolResults(results: seq<ToolResult>)

  /** The model API: system prompt and messages to a response. */
  type Api = (string, seq<Message>) -> Response

  /** `handle_fetch_data`: a tool input to the JSON text of its result. */
  type Fetch = map<string, Json> -> string

  /** `json.loads`: the parsed value, or `None` when it raises a `ValueError`. */
  type Parse = string -> Option<Json>

  /** The system prompt: the fixed instructions, plus the memory context when there is any. */
  function SystemPrompt(base: string, memoryContext: string): (system: string)
    ensures IsPrefixOf(base, system)
    ensures system == base <==> memoryContext == []
    ensures memoryContext != [] ==> system[|base|..] == "\n\n## Session Context\n" + memoryContext
  {
    if memoryContext != [] then base + "\n\n## Session Context\n" + memoryContext else base
  }

  predicate IsFetch(b: Block) {
    b.ToolUse? && b.name == "fetch_data"
  }

  /** The `filters` object of a tool input; empty when it has none. */
  function FiltersIn(input: map<string, Json>): map<string, Json> {
    if "filters" in input && input["filters"].JObj? then input["filters"].fields else map[]
  }

  /** The tool results of a response: one per `fetch_data` block, in block order. */
  function ToolResultsFor(blocks: seq<Block>, fetch: Fetch): (rs: seq<ToolResult>)
    ensures |rs| <= |blocks|
  {
    if blocks == [] then []
    else
      var last := blocks[|blocks| - 1];
      ToolResultsFor(blocks[..|blocks| - 1], fetch)
      + (if IsFetch(last) then [ToolResult(last.id, fetch(last.input))] else [])
  }

  /** `collected_filters` after the `fetch_data` blocks of a response, updated in order. */
  function MergeFilters(acc: map<string, Json>, blocks: seq<Block>): map<string, Json> {
    if blocks == [] then acc
    else
      var last := blocks[|blocks| - 1];
      var m := MergeFilters(acc, blocks[..|blocks| - 1]);
      if IsFetch(last) then m + FiltersIn(last.input) else m
  }

  /** The concatenated text of the text blocks. */
  function TextOf(blocks: seq<Block>): string {
    if blocks == [] then []
    else
      var last := blocks[|blocks| - 1];
      TextOf(blocks[..|blocks| - 1]) + (if last.Text? then last.text else [])
  }

  /** The inner loop of a round: tool results for the `fetch_data` blocks, and the filters they carry. */
  method ProcessToolBlocks(blocks: seq<Block>, collected: map<string, Json>, fetch: Fetch)
    returns (results: seq<ToolResult>, collected': map<string, Json>)
    ensures results == ToolResultsFor(blocks, fetch)
    ensures collected' == MergeFilters(collected, blocks)
  {
    results := [];
    collected' := collected;
    for n := 0 to |blocks|
      invariant results == ToolResultsFor(blocks[..n], fetch)
      invariant collected' == MergeFilters(collected, blocks[..n])
    {
      var block := blocks[n];
      assert blocks[..n + 1][..n] == blocks[..n];
      if block.ToolUse? && block.name == "fetch_data" {
        var toolInput := block.input;
        if "filters" in toolInput && toolInput["filters"].JObj? {
          collected' := collected' + toolInput["filters"].fields;
        }
        var resultJson := fetch(toolInput);
        results := results + [ToolResult(block.id, resultJson)];
      }
    }
    assert blocks[..|blocks|] == blocks;
  }

  /** The final-text loop: the text of every block that has one, in order. */
  method CollectText(blocks: seq<Block>) returns (finalText: string)
    ensures finalText == TextOf(blocks)
  {
    finalText := "";
    for n := 0 to |blocks|
      invariant finalText == TextOf(blocks[..n])
    {
      assert blocks[..n + 1][..n] == blocks[..n];
      if blocks[n].Text? {
        finalText := finalText + blocks[n].text;
      }
    }
    assert blocks[..|blocks|] == blocks;
  }

  // ---------------------------------------------------------------------------
  // The tool loop
  // ---------------------------------------------------------------------------

  /** The state of the conversation: messages so far, the last response, collected filters, rounds done. */
  datatype Conversation = Conversation(messages: seq<Message>, response: Response, filters: map<string, Json>, rounds: nat)

  /** The opening call: the user's query alone. */
  function Opening(system: string, query: string, api: Api): Conversation {
    Conversation([UserText(query)], api(system, [UserText(query)]), map[], 0)
  }

  /** The loop ends at this response: no tool use was asked for, or no `fetch_data` block gave a result. */
  predicate Stops(r: Response, fetch: Fetch) {
    r.stopReason != "tool_use" || ToolResultsFor(r.content, fetch) == []
  }

  /** One follow-up round: the assistant turn and the tool results are sent back. */
  function Round(system: string, api: Api, fetch: Fetch, c: Conversation): (r: Conversation)
    ensures r.rounds == c.rounds + 1
    ensures |r.messages| == |c.messages| + 2
  {
    var results := ToolResultsFor(c.response.content, fetch);
    var msgs := c.messages + [Assistant(c.response.content), ToolResults(results)];
    Conversation(msgs, api(system, msgs), MergeFilters(c.filters, c.response.content), c.rounds + 1)
  }

  /** Up to `fuel` further rounds, ending early when the loop stops. */
  function Converse(system: string, api: Api, fetch: Fetch, c: Conversation, fuel: nat): (r: Conversation)
    ensures c.rounds <= r.rounds <= c.rounds + fuel
    decreases fuel
  {
    if fuel == 0 || Stops(c.response, fetch) then c
    else Converse(system, api, fetch, Round(system, api, fetch, c), fuel - 1)
  }

  /** A conversation whose last response stops the loop is final. */
  lemma ConverseStops(system: string, api: Api, fetch: Fetch, c: Conversation, fuel: nat)
    requires Stops(c.response, fetch)
    ensures Converse(system, api, fetch, c, fuel) == c
  {
  }

  /** Otherwise one more round is taken, out of the remaining budget. */
  lemma ConverseContinues(system: string, api: Api, fetch: Fetch, c: Conversation, fuel: nat)
    requires fuel > 0 && !Stops(c.response, fetch)
    ensures Converse(system, api, fetch, c, fuel) == Converse(system, api, fetch, Round(system, api, fetch, c), fuel - 1)
    ensures var msgs := c.messages + [Assistant(c.response.content), ToolResults(ToolResultsFor(c.response.content, fetch))];
            Round(system, api, fetch, c) == Conversation(msgs, api(system, msgs), MergeFilters(c.filters, c.response.content), c.rounds + 1)
  {
  }

  const MaxRounds := 10

  /** What the tool loop of `generate_visualization` ends with. */
  function ToolLoop(system: string, query: string, api: Api, fetch: Fetch): (r: Conversation)
    ensures r.rounds <= MaxRounds
  {
    Converse(system, api, fetch, Opening(system, query, api), MaxRounds)
  }

  /**
   * A well-formed conversation: the query first, then per round an assistant turn
   * and a non-empty turn of tool results; the last response answers exactly these messages.
   */
  ghost predicate WellFormed(system: string, query: string, api: Api, c: Conversation) {
    && |c.messages| == 1 + 2 * c.rounds
    && c.messages[0] == UserText(query)
    && (forall i :: 1 <= i < |c.messages| ==>
          if i % 2 == 1 then c.messages[i].Assistant?
          else c.messages[i].ToolResults? && c.messages[i].results != [])
    && c.response == api(system, c.messages)
  }

  lemma RoundWellFormed(system: string, query: string, api: Api, fetch: Fetch, c: Conversation)
    requires WellFormed(system, query, api, c)
    requires !Stops(c.response, fetch)
    ensures WellFormed(system, query, api, Round(system, api, fetch, c))
  {
    var c' := Round(system, api, fetch, c);
    forall i | 1 <= i < |c'.messages|
      ensures if i % 2 == 1 then c'.messages[i].Assistant?
              else c'.messages[i].ToolResults? && c'.messages[i].results != []
    {
      if i < |c.messages| {
        assert c'.messages[i] == c.messages[i];
      }
    }
  }

  /**
   * The rounds of `Converse`: at most `fuel` more, each keeping the conversation
   * well formed, and fewer only when the loop stopped at the last response.
   */
  lemma {:induction false} ConverseProperties(system: string, query: string, api: Api, fetch: Fetch, c: Conversation, fuel: nat)
    requires WellFormed(system, query, api, c)
    decreases fuel
    ensures var e := Converse(system, api, fetch, c, fuel);
            && c.rounds <= e.rounds <= c.rounds + fuel
            && WellFormed(system, query, api, e)
            && (e.rounds < c.rounds + fuel ==> Stops(e.response, fetch))
            && IsPrefixOf(c.messages, e.messages)
            && c.filters.Keys <= e.filters.Keys
  {
    if fuel > 0 && !Stops(c.response, fetch) {
      var c' := Round(system, api, fetch, c);
      RoundWellFormed(system, query, api, fetch, c);
      ConverseProperties(system, query, api, fetch, c', fuel - 1);
      MergeKeysGrow(c.filters, c.response.content);
      var e := Converse(system, api, fetch, c', fuel - 1);
      assert e.messages[..|c'.messages|] == c'.messages;
      assert c'.messages[..|c.messages|] == c.messages;
      assert e.messages[..|c.messages|] == c.messages;
    }
  }

  /**
   * The tool loop runs at most 10 follow-up rounds, each adding an assistant turn
   * and then a user turn of tool results; it ends earlier only when the last
   * response asked for no tool or carried no `fetch_data` block.
   */
  lemma ToolLoopBound(system: string, query: string, api: Api, fetch: Fetch)
    ensures var e := ToolLoop(system, query, api, fetch);
            && e.rounds <= MaxRounds
            && WellFormed(system, query, api, e)
            && (e.rounds < MaxRounds ==> Stops(e.response, fetch))
  {
    ConverseProperties(system, query, api, fetch, Opening(system, query, api), MaxRounds);
  }

  /** A first response that asks for no tool ends the loop at once. */
  lemma NoToolNoRounds(system: string, query: string, api: Api, fetch: Fetch)
    requires api(system, [UserText(query)]).stopReason != "tool_use"
    ensures ToolLoop(system, query, api, fetch) == Opening(system, query, api)
  {
  }

  // ---------------------------------------------------------------------------
  // Collected filters
  // ---------------------------------------------------------------------------

  lemma {:induction false} MergeKeysGrow(acc: map<string, Json>, blocks: seq<Block>)
    ensures acc.Keys <= MergeFilters(acc, blocks).Keys
  {
    if blocks != [] {
      MergeKeysGrow(acc, blocks[..|blocks| - 1]);
    }
  }

  /**
   * Later filter keys overwrite earlier ones: a key takes its value from the last
   * `fetch_data` block whose filters carry it.
   */
  lemma {:induction false} MergeLastWins(acc: map<string, Json>, blocks: seq<Block>, i: nat, k: string)
    requires i < |blocks| && IsFetch(blocks[i]) && k in FiltersIn(blocks[i].input)
    requires forall j :: i < j < |blocks| && IsFetch(blocks[j]) ==> k !in FiltersIn(blocks[j].input)
    ensures k in MergeFilters(acc, blocks)
    ensures MergeFilters(acc, blocks)[k] == FiltersIn(blocks[i].input)[k]
  {
    var init := blocks[..|blocks| - 1];
    if i < |blocks| - 1 {
      forall j | i < j < |init| && IsFetch(init[j]) ensures k !in FiltersIn(init[j].input) {
        assert init[j] == blocks[j];
      }
      MergeLastWins(acc, init, i, k);
    }
  }

  /** A key no `fetch_data` block carries keeps its earlier value. */
  lemma {:induction false} MergeUntouched(acc: map<string, Json>, blocks: seq<Block>, k: string)
    requires forall j :: 0 <= j < |blocks| && IsFetch(blocks[j]) ==> k !in FiltersIn(blocks[j].input)
    ensures k in MergeFilters(acc, blocks) <==> k in acc
    ensures k in acc ==> MergeFilters(acc, blocks)[k] == acc[k]
  {
    if blocks != [] {
      var init := blocks[..|blocks| - 1];
      forall j | 0 <= j < |init| && IsFetch(init[j]) ensures k !in FiltersIn(init[j].input) {
        assert init[j] == blocks[j];
      }
      MergeUntouched(acc, init, k);
    }
  }

  /** No tool result without a `fetch_data` block, and one for each. */
  lemma {:induction false} ToolResultsEmpty(blocks: seq<Block>, fetch: Fetch)
    ensures ToolResultsFor(blocks, fetch) == [] <==> forall j :: 0 <= j < |blocks| ==> !IsFetch(blocks[j])
  {
    if blocks != [] {
      var init := blocks[..|blocks| - 1];
      ToolResultsEmpty(init, fetch);
      assert forall j :: 0 <= j < |init| ==> init[j] == blocks[j];
    }
  }

  // ---------------------------------------------------------------------------
  // The result
  // ---------------------------------------------------------------------------

  const Apology := "I wasn't able to generate a visualization."

  const ResultKeys: set<string> := {"explanation", "svg_code", "css_styles"}

  /** `result.get(key, "")`. */
  function Get(fields: map<string, Json>, key: string): (v: Json)
    ensures key in fields ==> v == fields[key]
    ensures key !in fields ==> v == JStr("")
  {
    if key in fields then fields[key] else JStr("")
  }

  /** `text[:500]`. */
  function Head500(text: string): (h: string)
    ensures |h| <= 500 && IsPrefixOf(h, text)
    ensures |text| <= 500 ==> h == text
    ensures |text| > 500 ==> |h| == 500
  {
    if |text| <= 500 then text else text[..500]
  }

  /** The record returned to the caller. */
  function Record(explanation: Json, svgCode: Json, cssStyles: Json): map<string, Json> {
    map["explanation" := explanation, "svg_code" := svgCode, "css_styles" := cssStyles]
  }

  lemma RecordKeys(explanation: Json, svgCode: Json, cssStyles: Json)
    ensures Record(explanation, svgCode, cssStyles).Keys == ResultKeys
  {
  }

  /** `generate_visualization` raises when the reply parses to JSON that is not an object. */
  datatype ShapeError = NotAnObject

  /**
   * The tail of `generate_visualization`: no text gives the apology; text that does
   * not parse becomes the explanation, cut to 500 characters; parsed JSON must be
   * an object, and its three keys are copied with `""` for a missing one.
   */
  function Shape(finalText: string, parse: Parse): (out: Result<map<string, Json>, ShapeError>)
    ensures out.Ok? ==> out.value.Keys == ResultKeys
  {
    if finalText == [] then
      RecordKeys(JStr(Apology), JStr(""), JStr(""));
      Ok(Record(JStr(Apology), JStr(""), JStr("")))
    else
      match parse(ExtractFences(finalText))
      case None =>
        // the fallback record has all three keys, so `get` finds each of them
        RecordKeys(JStr(Head500(finalText)), JStr(""), JStr(""));
        Ok(Record(JStr(Head500(finalText)), JStr(""), JStr("")))
      case Some(JObj(result)) =>
        RecordKeys(Get(result, "explanation"), Get(result, "svg_code"), Get(result, "css_styles"));
        Ok(Record(Get(result, "explanation"), Get(result, "svg_code"), Get(result, "css_styles")))
      case Some(_) => Err(NotAnObject)
  }

  /**
   * The cases of the result: the apology for no text; for text that does not
   * parse, its first 500 characters (all of it when shorter) as the explanation and empty SVG and
   * CSS; for a parsed object, its three fields with `""` for a missing one; an
   * error for any other parsed value.
   */
  lemma ShapeCases(finalText: string, parse: Parse)
    ensures finalText == [] ==> Shape(finalText, parse) == Ok(Record(JStr(Apology), JStr(""), JStr("")))
    ensures finalText != [] && parse(ExtractFences(finalText)).None? ==>
              exists h :: |h| <= 500 && IsPrefixOf(h, finalText) && (|finalText| <= 500 ==> h == finalText)
                && (|finalText| > 500 ==> |h| == 500)
                && Shape(finalText, parse) == Ok(Record(JStr(h), JStr(""), JStr("")))
    ensures finalText != [] && parse(ExtractFences(finalText)).Some? ==>
              match parse(ExtractFences(finalText))
              case Some(JObj(m)) =>
                Shape(finalText, parse) == Ok(Record(Get(m, "explanation"), Get(m, "svg_code"), Get(m, "css_styles")))
              case Some(_) => Shape(finalText, parse) == Err(NotAnObject)
  {
    if finalText != [] && parse(ExtractFences(finalText)).None? {
      var h := Head500(finalText);
      assert Shape(finalText, parse) == Ok(Record(JStr(h), JStr(""), JStr("")));
    }
  }

  /** A JSON object in a fenced reply gives its three fields. */
  lemma FencedObjectShown(w0: string, tag: string, w1: string, body: string, w2: string, w3: string,
                          parse: Parse, m: map<string, Json>)
    requires AllSpace(w0) && AllSpace(w1) && AllSpace(w2) && AllSpace(w3)
    requires Trimmed(body)
    requires tag == "json" || (tag == "" && !IsPrefixOf("json", w1 + body))
    requires parse(body) == Some(JObj(m))
    ensures Shape(w0 + (Fence + tag + w1 + body + w2 + Fence) + w3, parse)
              == Ok(Record(Get(m, "explanation"), Get(m, "svg_code"), Get(m, "css_styles")))
  {
    var text := w0 + (Fence + tag + w1 + body + w2 + Fence) + w3;
    FencedRoundTrip(w0, tag, w1, body, w2, w3);
    assert |text| >= 6;
    ShapeCases(text, parse);
  }

  /**
   * The opening call and the tool loop of `generate_visualization`: the last
   * response and the filters collected on the way.
   */
  method RunToolLoop(system: string, userQuery: string, api: Api, fetch: Fetch)
    returns (response: Response, collectedFilters: map<string, Json>)
    ensures response == ToolLoop(system, userQuery, api, fetch).response
    ensures collectedFilters == ToolLoop(system, userQuery, api, fetch).filters
  {
    var messages := [UserText(userQuery)];
    response := api(system, messages);
    collectedFilters := map[];
    ghost var rounds: nat := 0;
    ghost var goal := ToolLoop(system, userQuery, api, fetch);
    for i := 0 to MaxRounds
      invariant rounds == i
      invariant Converse(system, api, fetch, Conversation(messages, response, collectedFilters, rounds), MaxRounds - i) == goal
    {
      ghost var c := Conversation(messages, response, collectedFilters, rounds);
      if response.stopReason != "tool_use" {
        ConverseStops(system, api, fetch, c, MaxRounds - i);
        break;
      }
      var toolResults, filters' := ProcessToolBlocks(response.content, collectedFilters, fetch);
      if toolResults == [] {
        ConverseStops(system, api, fetch, c, MaxRounds - i);
        break;
      }
      messages := messages + [Assistant(response.content), ToolResults(toolResults)];
      collectedFilters := filters';
      response := api(system, messages);
      rounds := rounds + 1;
      ConverseContinues(system, api, fetch, c, MaxRounds - i);
    }
    assert Conversation(messages, response, collectedFilters, rounds) == goal;
  }

  /** The arguments of the `update_memory` call that records a finished request. */
  datatype MemoryUpdate = MemoryUpdate(userQuery: string, explanation: Json, filters: map<string, Json>)

  /**
   * The memory update `generate_visualization` issues after shaping: none on the
   * apology path, which returns first, and none when the parsed reply is not an
   * object, since `result.get` raises before the call; otherwise the explanation
   * the caller receives and the collected filters.
   */
  function MemoryUpdateFor(userQuery: string, finalText: string, parse: Parse, filters: map<string, Json>)
    : (u: Option<MemoryUpdate>)
    ensures finalText == [] ==> u == None
    ensures finalText != [] && parse(ExtractFences(finalText)).None? ==>
              u == Some(MemoryUpdate(userQuery, JStr(Head500(finalText)), filters))
    ensures finalText != [] && parse(ExtractFences(finalText)).Some? && parse(ExtractFences(finalText)).value.JObj? ==>
              u == Some(MemoryUpdate(userQuery, Get(parse(ExtractFences(finalText)).value.fields, "explanation"), filters))
    ensures finalText != [] && parse(ExtractFences(finalText)).Some? && !parse(ExtractFences(finalText)).value.JObj? ==>
              u == None
    ensures u.Some? ==> Shape(finalText, parse).Ok? && u.value.explanation == Shape(finalText, parse).value["explanation"]
  {
    if finalText == [] then None
    else
      match Shape(finalText, parse)
      case Ok(result) => Some(MemoryUpdate(userQuery, result["explanation"], filters))
      case Err(_) => None
  }

  /**
   * `generate_visualization` with the memory lookup's result, the model API, the
   * data handler and the JSON parser as parameters. Returns the result (or the
   * error it raises) and the memory update it issues, which carries the filters
   * the tool loop collected.
   */
  method GenerateVisualization(userQuery: string, memoryContext: string, basePrompt: string,
                               api: Api, fetch: Fetch, parse: Parse)
    returns (out: Result<map<string, Json>, ShapeError>, update: Option<MemoryUpdate>)
    ensures var e := ToolLoop(SystemPrompt(basePrompt, memoryContext), userQuery, api, fetch);
            && out == Shape(TextOf(e.response.content), parse)
            && update == MemoryUpdateFor(userQuery, TextOf(e.response.content), parse, e.filters)
  {
    var system := SystemPrompt(basePrompt, memoryContext);
    var response, collectedFilters := RunToolLoop(system, userQuery, api, fetch);
    var finalText := CollectText(response.content);
    out := Shape(finalText, parse);
    update := MemoryUpdateFor(userQuery, finalText, parse, collectedFilters);
  }
}
