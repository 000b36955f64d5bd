/**
 * The adapter for providers with native tool calls (`OpenAIAdapter`): the
 * messages go out unchanged, and the provider's already-parsed tool calls
 * are standardised, decoding string arguments with `json.loads`.
 */
module OpenAIAdapter {
  import opened Wrappers
  import opened Json

  /** A tool call object as the client library hands it over. */
  datatype NativeCall = NativeCall(id: Option<string>, name: string, arguments: Json)

  /** A standardised call: `name`, decoded `arguments`, `id`. */
  datatype StdCall = StdCall(name: string, arguments: Json, id: string)

  datatype Parsed = Parsed(content: string, toolCalls: seq<StdCall>)

  /** `prepare_messages`: the provider understands tools natively, so nothing is injected. */
  function PrepareMessages(messages: seq<Json>, tools: Option<seq<Json>>): (r: seq<Json>)
    ensures r == messages
  {
    messages
  }

  /** One call standardised, or `None` when its string arguments do not decode (the call is skipped). */
  function Standardised(tc: NativeCall, loads: string -> Option<Json>): (r: Option<StdCall>)
    ensures r.Some? ==> r.value.name == tc.name
    ensures r.Some? ==> r.value.id == (if tc.id.Some? && tc.id.value != "" then tc.id.value else "call_unknown")
    ensures !tc.arguments.JStr? ==> r.Some? && r.value.arguments == tc.arguments
    ensures tc.arguments.JStr? ==> (r.Some? <==> loads(tc.arguments.s).Some?)
    ensures tc.arguments.JStr? && r.Some? ==> r.value.arguments == loads(tc.arguments.s).value
  {
    var args :=
      if tc.arguments.JStr? then loads(tc.arguments.s) else Some(tc.arguments);
    if args.None? then None
    else Some(StdCall(tc.name, args.value, if tc.id.Some? && tc.id.value != "" then tc.id.value else "call_unknown"))
  }

  /** The loop of `parse_response` as a filter-map over the calls, in order. */
  function StandardisedAll(calls: seq<NativeCall>, loads: string -> Option<Json>): (r: seq<StdCall>)
    ensures |r| <= |calls|
  {
    if calls == [] then []
    else
      var rest := StandardisedAll(calls[1..], loads);
      match Standardised(calls[0], loads)
      case Some(c) => [c] + rest
      case None => rest
  }

  /** `parse_response`: the content passes through, no calls means an empty list. */
  function ParseResponse(content: string, toolCalls: Option<seq<NativeCall>>, loads: string -> Option<Json>): (r: Parsed)
    ensures r.content == content
    ensures toolCalls.None? || toolCalls.value == [] ==> r.toolCalls == []
  {
    Parsed(content, if toolCalls.Some? then StandardisedAll(toolCalls.value, loads) else [])
  }

  /** The filter-map distributes over concatenation: skipping a call never reorders the others. */
  lemma {:induction false} StandardisedAppend(a: seq<NativeCall>, b: seq<NativeCall>, loads: string -> Option<Json>)
    ensures StandardisedAll(a + b, loads) == StandardisedAll(a, loads) + StandardisedAll(b, loads)
  {
    if a == [] {
      assert a + b == b;
    } else {
      assert (a + b)[1..] == a[1..] + b;
      StandardisedAppend(a[1..], b, loads);
    }
  }

  /** A call whose arguments do not decode contributes nothing. */
  lemma {:induction false} SkipsUndecodable(a: seq<NativeCall>, bad: NativeCall, b: seq<NativeCall>, loads: string -> Option<Json>)
    requires bad.arguments.JStr? && loads(bad.arguments.s).None?
    ensures StandardisedAll(a + [bad] + b, loads) == StandardisedAll(a + b, loads)
  {
    StandardisedAppend(a + [bad], b, loads);
    StandardisedAppend(a, [bad], loads);
    StandardisedAppend(a, b, loads);
    assert StandardisedAll([bad], loads) == [];
  }

  /** When every call decodes, every call is kept, one for one and in order. */
  lemma {:induction false} AllDecodableKept(calls: seq<NativeCall>, loads: string -> Option<Json>)
    requires forall i :: 0 <= i < |calls| ==> Standardised(calls[i], loads).Some?
    ensures |StandardisedAll(calls, loads)| == |calls|
    ensures forall i :: 0 <= i < |calls| ==> StandardisedAll(calls, loads)[i] == Standardised(calls[i], loads).value
  {
    if calls != [] {
      AllDecodableKept(calls[1..], loads);
      var rest := StandardisedAll(calls[1..], loads);
      assert StandardisedAll(calls, loads) == [Standardised(calls[0], loads).value] + rest;
      forall i | 1 <= i < |calls| ensures StandardisedAll(calls, loads)[i] == Standardised(calls[i], loads).value {
        assert calls[1..][i - 1] == calls[i];
      }
    }
  }
}
