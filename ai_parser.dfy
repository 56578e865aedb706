/** The reply cleaner of `AIParser.parse_message`: the model's reply is
    stripped, a leading Markdown code fence (with an optional `json` tag) or
    a trailing one is cut away, and the rest goes to `json.loads`. Any
    failure gives the single fallback value. */
module AiParser {
  import opened Common
  import opened Text
  import opened Json

  const Fence := "```"

  /** `{"action": "fallback_to_buttons"}`. */
  const Fallback := JObj(map["action" := JStr("fallback_to_buttons")])

  /** No fence lies inside `s[a..b]` when none starts in `[a, b - 3]`. */
  lemma NoFenceInside(s: string, a: nat, b: nat)
    requires a <= b <= |s|
    requires forall j :: a <= j && j + 3 <= b ==> !OccursAt(s, Fence, j)
    ensures !Contains(s[a..b], Fence)
  {
    var t := s[a..b];
    forall k | 0 <= k && k + 3 <= |t| ensures !OccursAt(t, Fence, k) {
      SliceOfSlice(s, a, b, k, k + 3);
      assert !OccursAt(s, Fence, a + k);
    }
  }

  /** `result.split("```")[1]` for a result that starts with a fence: the
      text after it up to the next fence, or to the end. */
  function FenceBody(s: string): (body: string)
    requires StartsWith(s, Fence)
    ensures !Contains(body, Fence)
    ensures 3 + |body| <= |s| && body == s[3..3 + |body|]
    ensures 3 + |body| == |s| || OccursAt(s, Fence, 3 + |body|)
    ensures forall k :: 3 <= k < 3 + |body| ==> !OccursAt(s, Fence, k)
  {
    match FindFrom(s, Fence, 3)
    case Some(j) =>
      NoFenceInside(s, 3, j);
      s[3..j]
    case None =>
      NoFenceInside(s, 3, |s|);
      s[3..|s|]
  }

  /** A text without a fence keeps that property when a prefix is cut off. */
  lemma SuffixHoldsNoFence(s: string, n: nat)
    requires !Contains(s, Fence) && n <= |s|
    ensures !Contains(s[n..], Fence)
  {
    NoFenceInside(s, n, |s|);
    assert s[n..] == s[n..|s|];
  }

  /** The fence branch: the body, less a leading `json` tag or else less
      one leading newline. */
  function Unfence(s: string): (r: string)
    requires StartsWith(s, Fence)
    ensures !Contains(r, Fence)
    ensures StartsWith(FenceBody(s), "json") ==> r == FenceBody(s)[4..]
    ensures !StartsWith(FenceBody(s), "json") && StartsWith(FenceBody(s), "\n") ==> r == FenceBody(s)[1..]
    ensures !StartsWith(FenceBody(s), "json") && !StartsWith(FenceBody(s), "\n") ==> r == FenceBody(s)
  {
    var body := FenceBody(s);
    if StartsWith(body, "json") then
      SuffixHoldsNoFence(body, 4);
      body[4..]
    else if StartsWith(body, "\n") then
      SuffixHoldsNoFence(body, 1);
      body[1..]
    else body
  }

  /** The fence handling applied to the stripped reply. */
  function Unwrap(s: string): string
  {
    var t := if StartsWith(s, Fence) then Unfence(s) else s;
    if EndsWith(t, Fence) then Strip(t[..|t| - 3]) else t
  }

  /** The text `json.loads` is given. */
  function Clean(reply: string): string
  {
    Unwrap(Strip(reply))
  }

  /** `parse_message`: the decoded cleaned reply, or the fallback when the
      client gives no reply text or the text does not decode. `loads` stands
      for `json.loads`, None meaning it raised. */
  function ParseMessage(reply: Option<string>, loads: string -> Option<Json>): (r: Json)
    ensures reply.None? ==> r == Fallback
    ensures reply.Some? && loads(Clean(reply.value)).None? ==> r == Fallback
    ensures reply.Some? && loads(Clean(reply.value)).Some? ==> r == loads(Clean(reply.value)).value
  {
    match reply
    case None => Fallback
    case Some(text) =>
      match loads(Clean(text))
      case None => Fallback
      case Some(j) => j
  }

  /** Leading and trailing whitespace of the reply never matters. */
  lemma CleanStripsFirst(reply: string)
    ensures Clean(Strip(reply)) == Clean(reply)
  {
    StripIdempotent(reply);
  }

  /** A fenced reply leaves no fence behind, and the trailing-fence rule
      never fires after the fence rule. */
  lemma FencedReplyHoldsNoFence(reply: string)
    requires StartsWith(Strip(reply), Fence)
    ensures Clean(reply) == Unfence(Strip(reply))
    ensures !Contains(Clean(reply), Fence)
  {
    EndingFenceIsContained(Unfence(Strip(reply)));
  }

  lemma EndingFenceIsContained(t: string)
    ensures EndsWith(t, Fence) ==> Contains(t, Fence)
  {
    if EndsWith(t, Fence) {
      assert OccursAt(t, Fence, |t| - 3);
    }
  }

  /** A reply that only ends with a fence loses those three characters and
      is stripped again. */
  lemma TrailingFenceIsCut(reply: string)
    requires !StartsWith(Strip(reply), Fence) && EndsWith(Strip(reply), Fence)
    ensures var s := Strip(reply); Clean(reply) == Strip(s[..|s| - 3])
  {
  }

  /** Without fences the reply reaches `json.loads` as stripped. */
  lemma UnfencedReplyIsStripped(reply: string)
    requires !StartsWith(Strip(reply), Fence) && !EndsWith(Strip(reply), Fence)
    ensures Clean(reply) == Strip(reply)
  {
  }

  /** `find` returns the occurrence that no earlier one precedes. */
  lemma FindFromFirst(s: string, p: string, from: nat, e: nat)
    requires from <= e && OccursAt(s, p, e)
    requires forall j :: from <= j < e ==> !OccursAt(s, p, j)
    ensures FindFrom(s, p, from) == Some(e)
  {
    var r := FindFrom(s, p, from);
    assert r.Some?;
  }

  /** In "```json<body>```" no fence starts between the opening and the
      closing one. */
  lemma NoFenceBeforeClosing(body: string, j: nat)
    requires !Contains(body, Fence)
    requires body != [] ==> body[|body| - 1] != '`'
    requires 3 <= j < 7 + |body|
    ensures !OccursAt("```json" + body + "```", Fence, j)
  {
    var s := "```json" + body + "```";
    var e := 7 + |body|;
    if j < 7 {
      assert s[j] == "json"[j - 3];
      assert s[j..j + 3][0] == s[j];
    } else if j + 3 <= e {
      assert !OccursAt(body, Fence, j - 7);
      assert s[j..j + 3] == body[j - 7..j - 4];
    } else {
      assert s[e - 1] == body[|body| - 1];
      assert s[j..j + 3][e - 1 - j] == s[e - 1];
    }
  }

  /** In "```json<body>```" the first fence after the opening one is the
      closing one. */
  lemma ClosingFenceIsFirst(body: string)
    requires !Contains(body, Fence)
    requires body != [] ==> body[|body| - 1] != '`'
    ensures FindFrom("```json" + body + "```", Fence, 3) == Some(7 + |body|)
  {
    var s := "```json" + body + "```";
    var e := 7 + |body|;
    assert |s| == e + 3;
    assert s[e..] == Fence;
    assert OccursAt(s, Fence, e);
    forall j | 3 <= j < e ensures !OccursAt(s, Fence, j) {
      NoFenceBeforeClosing(body, j);
    }
    FindFromFirst(s, Fence, 3, e);
  }

  /** The wrapped reply has a fence at each end, so stripping keeps it. */
  lemma WrappedIsTrimmed(body: string)
    ensures var s := "```json" + body + "```"; Clean(s) == Unwrap(s)
  {
    var s := "```json" + body + "```";
    assert s[|s| - 1] == '`' && s[0] == '`';
    StripKeepsTrimmed(s);
  }

  /** The text between the wrapped reply's fences is the tag and the body. */
  lemma WrappedFenceBody(body: string)
    requires !Contains(body, Fence)
    requires body != [] ==> body[|body| - 1] != '`'
    ensures var s := "```json" + body + "```"; StartsWith(s, Fence) && FenceBody(s) == "json" + body
  {
    var s := "```json" + body + "```";
    assert s[..3] == Fence;
    ClosingFenceIsFirst(body);
    assert s[3..7 + |body|] == "json" + body;
  }

  /** Cutting the `json` tag from the text between the fences leaves the body. */
  lemma WrappedUnfence(body: string)
    requires !Contains(body, Fence)
    requires body != [] ==> body[|body| - 1] != '`'
    ensures var s := "```json" + body + "```"; StartsWith(s, Fence) && Unfence(s) == body
  {
    WrappedFenceBody(body);
    var b := "json" + body;
    assert b[..4] == "json";
    assert b[4..] == body;
  }

  /** The fence handling returns the body of the wrapped reply. */
  lemma WrappedUnwrap(body: string)
    requires !Contains(body, Fence)
    requires body != [] ==> body[|body| - 1] != '`'
    ensures Unwrap("```json" + body + "```") == body
  {
    WrappedUnfence(body);
    EndingFenceIsContained(body);
  }

  /** A body wrapped as "```json<body>```" is recovered exactly, a leading
      newline of the body included: the tag and the newline are never both
      dropped. */
  lemma JsonFenceRoundTrip(body: string)
    requires !Contains(body, Fence)
    requires body != [] ==> body[|body| - 1] != '`'
    ensures Clean("```json" + body + "```") == body
  {
    WrappedUnwrap(body);
    WrappedIsTrimmed(body);
  }
}
