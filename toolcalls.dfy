/** The accumulation loop of handleStreamResponse (worker/chat.ts:167-197). A streamed chat
    completion arrives as chunks; each may carry a piece of text and a list of tool-call
    deltas, where the delta at position i continues the tool call at position i. The stream
    itself is network I/O, so the chunks are an input, and `Date.now()` is the clock reading
    each chunk is processed at. */
module ToolCalls {
  import opened Numbers

  /** One entry of `delta.tool_calls`. The source reads every field with `||` or a truthiness
      test, so an absent field and an empty one behave alike; both are `""` here. */
  datatype ToolCallDelta = ToolCallDelta(id: string, name: string, arguments: string)

  /** An accumulated call of type `function`. */
  datatype ToolCall = ToolCall(id: string, name: string, arguments: string)

  /** One chunk: its text (`""` when absent), its tool-call deltas and the clock reading. */
  datatype Chunk = Chunk(content: string, toolCalls: seq<ToolCallDelta>, now: nat)

  function Digit(d: nat): char
    requires d < 10
  {
    "0123456789"[d]
  }

  /** The decimal text of a number, as a template literal writes it. */
  function NatToString(n: nat): (s: string)
    ensures |s| >= 1
    ensures forall k :: 0 <= k < |s| ==> '0' <= s[k] <= '9'
    ensures n < 10 <==> |s| == 1
  {
    if n < 10 then [Digit(n)] else NatToString(n / 10) + [Digit(n % 10)]
  }

  /** The value of a decimal text. */
  function DigitsValue(s: string): int
  {
    if |s| == 0 then 0 else DigitsValue(s[..|s| - 1]) * 10 + (s[|s| - 1] as int - '0' as int)
  }

  /** The decimal text reads back as the number, so different clock readings give different
      texts. */
  lemma {:induction false} NatToStringValue(n: nat)
    ensures DigitsValue(NatToString(n)) == n
  {
    if n >= 10 {
      NatToStringValue(n / 10);
      var s := NatToString(n);
      var d := n % 10;
      assert s[..|s| - 1] == NatToString(n / 10);
      assert s[|s| - 1] == Digit(d);
      assert Digit(d) as int - '0' as int == d;
      assert (n / 10) * 10 + d == n;
    }
  }

  /** `tool_${Date.now()}_${i}`. */
  function FallbackId(now: nat, i: nat): string
  {
    "tool_" + NatToString(now) + "_" + NatToString(i)
  }

  /** The first delta at a position creates the call (lines 180-188). */
  function Created(d: ToolCallDelta, i: nat, now: nat): (t: ToolCall)
    ensures t.id == (if d.id != "" then d.id else FallbackId(now, i))
    ensures t.name == d.name && t.arguments == d.arguments
  {
    ToolCall(if d.id != "" then d.id else FallbackId(now, i), d.name, d.arguments)
  }

  /** A later delta sets the name only while it is still empty and appends its argument text
      (lines 189-195). */
  function Updated(t: ToolCall, d: ToolCallDelta): (u: ToolCall)
    ensures u.id == t.id && u.arguments == t.arguments + d.arguments
    ensures u.name == (if t.name == "" then d.name else t.name)
  {
    ToolCall(t.id, if d.name != "" && t.name == "" then d.name else t.name, t.arguments + d.arguments)
  }

  /** The inner loop over one chunk's deltas, as a fold. Position k of the result is the call at
      k updated by the k-th delta, a new call when there was none, or the old call when the
      chunk has no delta at k. Positions are filled without gaps. */
  function MergeDeltas(acc: seq<ToolCall>, ds: seq<ToolCallDelta>, now: nat): (r: seq<ToolCall>)
    ensures |r| == Max(|acc|, |ds|)
    ensures forall k :: 0 <= k < |r| ==>
              r[k] == (if k < |ds| then (if k < |acc| then Updated(acc[k], ds[k]) else Created(ds[k], k, now))
                       else acc[k])
  {
    if |ds| == 0 then acc
    else
      var prev := MergeDeltas(acc, ds[..|ds| - 1], now);
      var i := |ds| - 1;
      if i < |prev| then prev[i := Updated(prev[i], ds[i])] else prev + [Created(ds[i], i, now)]
  }

  /** The outer loop over the chunks: one call per position any chunk reached. */
  function Accumulate(chunks: seq<Chunk>): (r: seq<ToolCall>)
    ensures |r| == Width(chunks)
  {
    if |chunks| == 0 then []
    else
      var last := chunks[|chunks| - 1];
      MergeDeltas(Accumulate(chunks[..|chunks| - 1]), last.toolCalls, last.now)
  }

  /** `fullContent`: the texts of the chunks, in order. */
  function Content(chunks: seq<Chunk>): (r: string)
    ensures (forall k :: 0 <= k < |chunks| ==> chunks[k].content == "") ==> r == ""
  {
    if |chunks| == 0 then "" else Content(chunks[..|chunks| - 1]) + chunks[|chunks| - 1].content
  }

  /** What `onChunk` is called with: the non-empty texts, in order. */
  function Emitted(chunks: seq<Chunk>): (r: seq<string>)
    ensures |r| <= |chunks|
    ensures forall k :: 0 <= k < |r| ==> r[k] != ""
  {
    if |chunks| == 0 then []
    else
      var c := chunks[|chunks| - 1].content;
      Emitted(chunks[..|chunks| - 1]) + (if c != "" then [c] else [])
  }

  function Concat(pieces: seq<string>): string
  {
    if |pieces| == 0 then "" else Concat(pieces[..|pieces| - 1]) + pieces[|pieces| - 1]
  }

  /** The texts handed to `onChunk` add up to the full content. */
  lemma {:induction false} EmittedMakesContent(chunks: seq<Chunk>)
    ensures Concat(Emitted(chunks)) == Content(chunks)
  {
    if |chunks| > 0 {
      var init := chunks[..|chunks| - 1];
      EmittedMakesContent(init);
      var c := chunks[|chunks| - 1].content;
      if c != "" {
        assert (Emitted(init) + [c])[..|Emitted(init)|] == Emitted(init);
      } else {
        assert Emitted(init) + [] == Emitted(init);
      }
    }
  }

  /** The widest chunk: how many deltas the longest list had. */
  function Width(chunks: seq<Chunk>): nat
  {
    if |chunks| == 0 then 0 else Max(Width(chunks[..|chunks| - 1]), |chunks[|chunks| - 1].toolCalls|)
  }

  /** The argument text of the deltas at position k, chunk after chunk. */
  function ArgumentsAt(chunks: seq<Chunk>, k: nat): string
  {
    if |chunks| == 0 then ""
    else
      var ds := chunks[|chunks| - 1].toolCalls;
      ArgumentsAt(chunks[..|chunks| - 1], k) + (if k < |ds| then ds[k].arguments else "")
  }

  /** The first non-empty name among the deltas at position k, or `""`. */
  function FirstName(chunks: seq<Chunk>, k: nat): string
  {
    if |chunks| == 0 then ""
    else
      var earlier := FirstName(chunks[..|chunks| - 1], k);
      var ds := chunks[|chunks| - 1].toolCalls;
      if earlier != "" then earlier else if k < |ds| then ds[k].name else ""
  }

  /** A position no chunk has reached carries no text and no name yet. */
  lemma {:induction false} NothingBeyondWidth(chunks: seq<Chunk>, k: nat)
    requires k >= Width(chunks)
    ensures ArgumentsAt(chunks, k) == "" && FirstName(chunks, k) == ""
  {
    if |chunks| > 0 {
      NothingBeyondWidth(chunks[..|chunks| - 1], k);
    }
  }

  /** After the whole stream there is one call per position any chunk reached; the arguments of
      the call at k are the argument fragments of position k concatenated in arrival order, and
      its name is the first name any of them carried. */
  lemma {:induction false} AccumulatedCalls(chunks: seq<Chunk>)
    ensures forall k :: 0 <= k < Width(chunks) ==>
              Accumulate(chunks)[k].arguments == ArgumentsAt(chunks, k)
              && Accumulate(chunks)[k].name == FirstName(chunks, k)
  {
    if |chunks| > 0 {
      var init := chunks[..|chunks| - 1];
      var last := chunks[|chunks| - 1];
      AccumulatedCalls(init);
      var prev := Accumulate(init);
      var r := Accumulate(chunks);
      assert r == MergeDeltas(prev, last.toolCalls, last.now);
      forall k | 0 <= k < Width(chunks)
        ensures r[k].arguments == ArgumentsAt(chunks, k) && r[k].name == FirstName(chunks, k)
      {
        if k >= |prev| {
          NothingBeyondWidth(init, k);
        }
      }
    }
  }

  /** A call keeps the id it was created with: what a prefix of the stream assigned survives the
      rest of it. */
  lemma {:induction false} IdsAreStable(chunks: seq<Chunk>, j: nat)
    requires j <= |chunks|
    ensures |Accumulate(chunks[..j])| <= |Accumulate(chunks)|
    ensures forall k :: 0 <= k < |Accumulate(chunks[..j])| ==> Accumulate(chunks)[k].id == Accumulate(chunks[..j])[k].id
  {
    if j < |chunks| {
      var init := chunks[..|chunks| - 1];
      assert init[..j] == chunks[..j];
      IdsAreStable(init, j);
    } else {
      assert chunks[..j] == chunks;
    }
  }

  /** The inner loop over one chunk's deltas (lines 177-196): `accumulatedToolCalls[i]` is
      created, or its name and arguments are updated in place. */
  method MergeChunk(acc: seq<ToolCall>, deltas: seq<ToolCallDelta>, now: nat) returns (accumulatedToolCalls: seq<ToolCall>)
    ensures accumulatedToolCalls == MergeDeltas(acc, deltas, now)
  {
    accumulatedToolCalls := acc;
    for i := 0 to |deltas|
      invariant accumulatedToolCalls == MergeDeltas(acc, deltas[..i], now)
    {
      assert deltas[..i + 1][..i] == deltas[..i];
      var deltaToolCall := deltas[i];
      if i >= |accumulatedToolCalls| {
        accumulatedToolCalls := accumulatedToolCalls + [Created(deltaToolCall, i, now)];
      } else {
        var t := accumulatedToolCalls[i];
        ghost var t0 := t;
        if deltaToolCall.name != "" && t.name == "" {
          t := t.(name := deltaToolCall.name);
        }
        if deltaToolCall.arguments != "" {
          t := t.(arguments := t.arguments + deltaToolCall.arguments);
        }
        assert t == Updated(t0, deltaToolCall);
        accumulatedToolCalls := accumulatedToolCalls[i := t];
      }
    }
    assert deltas[..|deltas|] == deltas;
  }

  /** The loops of handleStreamResponse (lines 167-197), without the error handling around them. */
  method AccumulateStream(chunks: seq<Chunk>) returns (fullContent: string, emitted: seq<string>,
                                                       accumulatedToolCalls: seq<ToolCall>)
    ensures fullContent == Content(chunks)
    ensures emitted == Emitted(chunks)
    ensures accumulatedToolCalls == Accumulate(chunks)
  {
    fullContent := "";
    emitted := [];
    accumulatedToolCalls := [];
    for c := 0 to |chunks|
      invariant fullContent == Content(chunks[..c])
      invariant emitted == Emitted(chunks[..c])
      invariant accumulatedToolCalls == Accumulate(chunks[..c])
    {
      var chunk := chunks[c];
      assert chunks[..c + 1][..c] == chunks[..c];
      if chunk.content != "" {
        fullContent := fullContent + chunk.content;
        emitted := emitted + [chunk.content];
      }
      accumulatedToolCalls := MergeChunk(accumulatedToolCalls, chunk.toolCalls, chunk.now);
    }
    assert chunks[..|chunks|] == chunks;
  }
}
