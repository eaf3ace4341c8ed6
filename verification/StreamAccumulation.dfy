/** Accumulation of streamed tool calls, whose deltas arrive interleaved. */
module StreamAccumulation {
  import opened Options
  import Sequences
  import Text

  /** An index as the providers send it: a number, or a text with its numeric value. */
  datatype RawIndex = IntegerIndex(n: int) | NumericText(n: int) | OtherIndex

  /** Fields that are no strings are absent. */
  datatype RawDelta = RawDelta(index: RawIndex, id: Option<string>, name: Option<string>, arguments: Option<string>)

  datatype Delta = Delta(index: nat, id: Option<string>, name: Option<string>, arguments: Option<string>)

  function Normalize(raw: RawDelta): Option<Delta> {
    if raw.index.OtherIndex? || raw.index.n < 0 then None else Some(Delta(raw.index.n, raw.id, raw.name, raw.arguments))
  }

  datatype Entry = Entry(id: string, name: string, arguments: string)

  const EMPTY := Entry("", "", "")

  function OrElse(a: Option<string>, b: string): string {
    if a.Some? then a.value else b
  }

  function Merge(e: Entry, d: Delta): Entry {
    Entry(OrElse(d.id, e.id), OrElse(d.name, e.name), e.arguments + OrElse(d.arguments, ""))
  }

  type Calls = map<nat, Entry>

  function At(calls: Calls, index: nat): Entry {
    if index in calls then calls[index] else EMPTY
  }

  /** One delta at a time, in arrival order. */
  function Fold(calls: Calls, deltas: seq<Delta>): Calls
    decreases deltas
  {
    if deltas == [] then calls
    else Fold(calls[deltas[0].index := Merge(At(calls, deltas[0].index), deltas[0])], deltas[1..])
  }

  /** Deltas may be folded in batches. */
  lemma {:induction false} FoldAppend(calls: Calls, a: seq<Delta>, b: seq<Delta>)
    ensures Fold(calls, a + b) == Fold(Fold(calls, a), b)
    decreases a
  {
    if a == [] {
      Sequences.Unit(b);
    } else {
      assert (a + b)[0] == a[0] && (a + b)[1..] == a[1..] + b;
      FoldAppend(calls[a[0].index := Merge(At(calls, a[0].index), a[0])], a[1..], b);
    }
  }

  // ----- each index on its own -----

  function Only(deltas: seq<Delta>, index: nat): seq<Delta> {
    if deltas == [] then [] else (if deltas[0].index == index then [deltas[0]] else []) + Only(deltas[1..], index)
  }

  function MergeAll(e: Entry, deltas: seq<Delta>): Entry
    decreases deltas
  {
    if deltas == [] then e else MergeAll(Merge(e, deltas[0]), deltas[1..])
  }

  /** The final entry of an index is what its own deltas make of it. */
  lemma {:induction false} FoldAt(calls: Calls, deltas: seq<Delta>, index: nat)
    ensures At(Fold(calls, deltas), index) == MergeAll(At(calls, index), Only(deltas, index))
    ensures index in Fold(calls, deltas) <==> index in calls || Only(deltas, index) != []
    decreases deltas
  {
    if deltas != [] {
      var d := deltas[0];
      FoldAt(calls[d.index := Merge(At(calls, d.index), d)], deltas[1..], index);
      if d.index == index { assert Only(deltas, index)[1..] == Only(deltas[1..], index); } else { Sequences.Unit(Only(deltas[1..], index)); }
    }
  }

  /** Streams that agree on the deltas of every index accumulate the same calls, however they interleave. */
  lemma {:induction false} InterleavingIrrelevant(a: seq<Delta>, b: seq<Delta>)
    requires forall index :: Only(a, index) == Only(b, index)
    ensures Fold(map[], a) == Fold(map[], b)
  {
    var x, y := Fold(map[], a), Fold(map[], b);
    forall index: nat ensures (index in x <==> index in y) && At(x, index) == At(y, index) {
      FoldAt(map[], a, index);
      FoldAt(map[], b, index);
    }
    forall index | index in x ensures x[index] == y[index] {
      assert At(x, index) == At(y, index);
    }
    assert x.Keys == y.Keys;
  }

  function Slices(deltas: seq<Delta>): string {
    if deltas == [] then [] else OrElse(deltas[0].arguments, "") + Slices(deltas[1..])
  }

  function Last(deltas: seq<Delta>, field: Delta -> Option<string>): Option<string> {
    if deltas == [] then None
    else if field(deltas[|deltas| - 1]).Some? then field(deltas[|deltas| - 1])
    else Last(deltas[..|deltas| - 1], field)
  }

  lemma {:induction false} MergeSnoc(e: Entry, deltas: seq<Delta>, d: Delta)
    ensures MergeAll(e, deltas + [d]) == Merge(MergeAll(e, deltas), d)
    decreases deltas
  {
    if deltas == [] {
      assert (deltas + [d])[1..] == [];
      assert MergeAll(Merge(e, d), []) == Merge(e, d);
    } else {
      assert (deltas + [d])[0] == deltas[0] && (deltas + [d])[1..] == deltas[1..] + [d];
      MergeSnoc(Merge(e, deltas[0]), deltas[1..], d);
    }
  }

  lemma {:induction false} SlicesSnoc(deltas: seq<Delta>, d: Delta)
    ensures Slices(deltas + [d]) == Slices(deltas) + OrElse(d.arguments, "")
  {
    if deltas == [] {
      assert (deltas + [d])[1..] == [];
    } else {
      assert (deltas + [d])[0] == deltas[0] && (deltas + [d])[1..] == deltas[1..] + [d];
      SlicesSnoc(deltas[1..], d);
      Sequences.Associative(OrElse(deltas[0].arguments, ""), Slices(deltas[1..]), OrElse(d.arguments, ""));
    }
  }

  /** A call has the last id and name sent for it, and the concatenation of all argument slices. */
  lemma {:induction false} MergedEntry(deltas: seq<Delta>)
    ensures MergeAll(EMPTY, deltas) == Entry(OrElse(Last(deltas, (d: Delta) => d.id), ""), OrElse(Last(deltas, (d: Delta) => d.name), ""), Slices(deltas))
    decreases |deltas|
  {
    if deltas != [] {
      var front, d := deltas[..|deltas| - 1], deltas[|deltas| - 1];
      assert deltas == front + [d];
      MergedEntry(front);
      MergeSnoc(EMPTY, front, d);
      SlicesSnoc(front, d);
    }
  }

  function Normalized(raw: seq<RawDelta>): seq<Delta> {
    if raw == [] then [] else (if Normalize(raw[0]).Some? then [Normalize(raw[0]).value] else []) + Normalized(raw[1..])
  }

  lemma {:induction false} NormalizedHead(raw: seq<RawDelta>)
    requires raw != []
    ensures Normalize(raw[0]).None? ==> Normalized(raw) == Normalized(raw[1..])
    ensures Normalize(raw[0]).Some? ==> Normalized(raw) != [] && Normalized(raw)[0] == Normalize(raw[0]).value && Normalized(raw)[1..] == Normalized(raw[1..])
  {
    Sequences.Unit(Normalized(raw[1..]));
  }

  // ----- the finished calls -----

  function Smallest(s: set<nat>): (m: nat)
    requires s != {}
    ensures m in s && forall x :: x in s ==> m <= x
  {
    SmallestExists(s);
    var m :| m in s && forall x :: x in s ==> m <= x;
    m
  }

  lemma {:induction false} SmallestExists(s: set<nat>)
    requires s != {}
    ensures exists m :: m in s && forall x :: x in s ==> m <= x
  {
    var m := LeastOf(s);
  }

  lemma {:induction false} LeastOf(s: set<nat>) returns (least: nat)
    requires s != {}
    ensures least in s && forall x :: x in s ==> least <= x
    decreases s
  {
    var m :| m in s;
    var rest := s - {m};
    least := m;
    if rest != {} {
      var b := LeastOf(rest);
      if b < m { least := b; }
    }
    assert forall x :: x in s ==> x == m || x in rest;
  }

  /** The indices of the accumulated calls, ascending. */
  function Ascending(s: set<nat>): (r: seq<nat>)
    ensures forall x :: x in r <==> x in s
    ensures forall i, k :: 0 <= i < k < |r| ==> r[i] < r[k]
    decreases s
  {
    if s == {} then []
    else
      var m := Smallest(s);
      [m] + Ascending(s - {m})
  }

  datatype FinishedCall = FinishedCall(index: nat, id: string, entry: Entry)

  function IdOf(index: nat, e: Entry): string {
    if e.id != "" then e.id else "call_" + Text.Numeral(index, 10)
  }

  /** The finished calls: one per accumulated index, in ascending order, with the id that was sent or a made-up one. */
  ghost predicate IsFinished(finished: seq<FinishedCall>, calls: Calls) {
    && (forall i, k :: 0 <= i < k < |finished| ==> finished[i].index < finished[k].index)
    && (forall index :: index in calls <==> exists k :: 0 <= k < |finished| && finished[k].index == index)
    && (forall k :: 0 <= k < |finished| ==> finished[k].index in calls && finished[k].entry == calls[finished[k].index])
    && (forall k :: 0 <= k < |finished| ==> finished[k].id == IdOf(finished[k].index, finished[k].entry))
  }

  /** This determines the list. */
  lemma {:induction false} FinishedUnique(a: seq<FinishedCall>, b: seq<FinishedCall>, calls: Calls)
    requires IsFinished(a, calls) && IsFinished(b, calls)
    ensures a == b
  {
    var x, y := seq(|a|, i requires 0 <= i < |a| => a[i].index), seq(|b|, i requires 0 <= i < |b| => b[i].index);
    forall index: nat ensures index in x <==> index in y {
      SameIndices(a, x, calls, index);
      SameIndices(b, y, calls, index);
    }
    IncreasingUnique(x, y);
    forall i | 0 <= i < |a| ensures a[i] == b[i] { assert x[i] == y[i]; }
  }

  lemma {:induction false} SameIndices(a: seq<FinishedCall>, x: seq<nat>, calls: Calls, index: nat)
    requires IsFinished(a, calls) && |x| == |a| && forall i :: 0 <= i < |a| ==> x[i] == a[i].index
    ensures index in x <==> index in calls
  {
    if index in calls {
      var k :| 0 <= k < |a| && a[k].index == index;
      assert x[k] == index;
    }
  }

  ghost predicate Increasing(x: seq<nat>) {
    forall i, k :: 0 <= i < k < |x| ==> x[i] < x[k]
  }

  lemma {:induction false} TailMembers(x: seq<nat>)
    requires Increasing(x) && x != []
    ensures Increasing(x[1..]) && (forall n :: n in x[1..] <==> n in x && n != x[0]) && forall n :: n in x ==> x[0] <= n
  {
    assert x == [x[0]] + x[1..];
    assert forall i :: 0 < i < |x| ==> x[i] > x[0];
  }

  /** Two ascending lists with the same members are the same list. */
  lemma {:induction false} IncreasingUnique(x: seq<nat>, y: seq<nat>)
    requires Increasing(x) && Increasing(y) && forall n :: n in x <==> n in y
    ensures x == y
    decreases |x|
  {
    assert (x != [] ==> x[0] in x) && (y != [] ==> y[0] in y);
    if x != [] {
      TailMembers(x);
      TailMembers(y);
      IncreasingUnique(x[1..], y[1..]);
      assert x == [x[0]] + x[1..] && y == [y[0]] + y[1..];
    }
  }

  // ----- the class -----

  datatype Chunk = Chunk(usage: Option<nat>, hasChoice: bool, finish: Option<string>, deltas: seq<RawDelta>, text: Option<string>)

  class StreamAccumulator {
    var text: string
    var finishReason: Option<string>
    var usage: Option<nat>
    var toolCalls: Calls

    constructor ()
      ensures text == "" && finishReason == None && usage == None && toolCalls == map[]
    {
      text, finishReason, usage, toolCalls := "", None, None, map[];
    }

    /** Feeds one frame; a frame whose index cannot be recovered is skipped. */
    method Push(chunk: Chunk) returns (delta: Option<string>)
      modifies this
      ensures toolCalls == if chunk.hasChoice then Fold(old(toolCalls), Normalized(chunk.deltas)) else old(toolCalls)
      ensures text == old(text) + (if delta.Some? then delta.value else "")
      ensures delta == if chunk.hasChoice && chunk.text.Some? && chunk.text.value != "" then chunk.text else None
      ensures finishReason == if chunk.hasChoice && chunk.finish.Some? then chunk.finish else old(finishReason)
      ensures usage == if chunk.usage.Some? then chunk.usage else old(usage)
    {
      if chunk.usage.Some? { usage := chunk.usage; }
      if !chunk.hasChoice { return None; }
      if chunk.finish.Some? { finishReason := chunk.finish; }
      for i := 0 to |chunk.deltas|
        invariant text == old(text) && usage == (if chunk.usage.Some? then chunk.usage else old(usage))
        invariant finishReason == if chunk.finish.Some? then chunk.finish else old(finishReason)
        invariant Fold(old(toolCalls), Normalized(chunk.deltas)) == Fold(toolCalls, Normalized(chunk.deltas[i..]))
      {
        assert chunk.deltas[i..][0] == chunk.deltas[i] && chunk.deltas[i..][1..] == chunk.deltas[i + 1..];
        var delta := Normalize(chunk.deltas[i]);
        NormalizedHead(chunk.deltas[i..]);
        if delta.Some? {
          toolCalls := toolCalls[delta.value.index := Merge(At(toolCalls, delta.value.index), delta.value)];
        }
      }
      if chunk.text.Some? && chunk.text.value != "" {
        text := text + chunk.text.value;
        return chunk.text;
      }
      delta := None;
    }

    /** The response: the finished calls, and text only where there is no call. */
    method Finish() returns (finished: Option<string>, calls: seq<FinishedCall>, reason: string)
      ensures IsFinished(calls, toolCalls)
      ensures finished.Some? <==> toolCalls == map[] && text != ""
      ensures finished.Some? ==> finished.value == text
      ensures reason == if toolCalls != map[] then "tool_calls" else Reason(finishReason)
    {
      var order := Ascending(toolCalls.Keys);
      calls := [];
      for i := 0 to |order|
        invariant |calls| == i
        invariant forall k :: 0 <= k < i ==> calls[k] == CallAt(toolCalls, order[k])
      {
        calls := calls + [CallAt(toolCalls, order[i])];
      }
      OrderedCalls(toolCalls, order, calls);
      NothingFinished(calls, toolCalls);
      finished := if |calls| > 0 || text == "" then None else Some(text);
      reason := if |calls| > 0 then "tool_calls" else Reason(finishReason);
    }
  }

  function CallAt(calls: Calls, index: nat): FinishedCall {
    FinishedCall(index, IdOf(index, At(calls, index)), At(calls, index))
  }

  lemma {:induction false} CallOfIndex(order: seq<nat>, finished: seq<FinishedCall>, calls: Calls, index: nat)
    requires |finished| == |order| && forall k :: 0 <= k < |order| ==> finished[k] == CallAt(calls, order[k])
    requires index in order
    ensures exists k :: 0 <= k < |finished| && finished[k].index == index
  {
    var k :| 0 <= k < |order| && order[k] == index;
    assert finished[k].index == index;
  }

  lemma {:induction false} OrderedCalls(calls: Calls, order: seq<nat>, finished: seq<FinishedCall>)
    requires Increasing(order) && forall index :: index in order <==> index in calls
    requires |finished| == |order| && forall k :: 0 <= k < |order| ==> finished[k] == CallAt(calls, order[k])
    ensures IsFinished(finished, calls)
  {
    forall index | index in calls ensures exists k :: 0 <= k < |finished| && finished[k].index == index {
      CallOfIndex(order, finished, calls, index);
    }
    forall k | 0 <= k < |order| ensures finished[k].index in calls { assert order[k] in order; }
  }

  lemma {:induction false} NothingFinished(finished: seq<FinishedCall>, calls: Calls)
    requires IsFinished(finished, calls)
    ensures finished == [] <==> calls == map[]
  {
    if finished == [] { assert forall index :: index !in calls; } else { assert finished[0].index in calls; }
  }

  function Reason(finish: Option<string>): string {
    if finish == Some("stop") || finish == Some("tool_calls") || finish == Some("length") then finish.value else "error"
  }

  /** Every finished call is made of the deltas of its own index. */
  lemma {:induction false} FinishedCalls(deltas: seq<Delta>, finished: seq<FinishedCall>, k: nat)
    requires IsFinished(finished, Fold(map[], deltas)) && k < |finished|
    ensures var c := finished[k]; c.entry == MergeAll(EMPTY, Only(deltas, c.index)) && Only(deltas, c.index) != []
  {
    FoldAt(map[], deltas, finished[k].index);
  }

  // ----- whole streams -----

  /** The usable deltas of a stream, frame by frame. */
  function Deltas(chunks: seq<Chunk>): seq<Delta> {
    if chunks == [] then []
    else
      var last := chunks[|chunks| - 1];
      Deltas(chunks[..|chunks| - 1]) + if last.hasChoice then Normalized(last.deltas) else []
  }

  function Texts(chunks: seq<Chunk>): string {
    if chunks == [] then ""
    else
      var last := chunks[|chunks| - 1];
      Texts(chunks[..|chunks| - 1]) + if last.hasChoice && last.text.Some? then last.text.value else ""
  }

  lemma {:induction false} OneMoreFrame(chunks: seq<Chunk>, i: nat)
    requires i < |chunks|
    ensures Deltas(chunks[..i + 1]) == Deltas(chunks[..i]) + if chunks[i].hasChoice then Normalized(chunks[i].deltas) else []
    ensures Texts(chunks[..i + 1]) == Texts(chunks[..i]) + if chunks[i].hasChoice && chunks[i].text.Some? then chunks[i].text.value else ""
  {
    assert chunks[..i + 1][..i] == chunks[..i];
  }

  /** The frames before i are accumulated. */
  ghost predicate Holds(text: string, calls: Calls, chunks: seq<Chunk>, i: nat)
    requires i <= |chunks|
  {
    calls == Fold(map[], Deltas(chunks[..i])) && text == Texts(chunks[..i])
  }

  lemma {:induction false} HoldsNext(text: string, calls: Calls, chunks: seq<Chunk>, i: nat, delta: Option<string>)
    requires i < |chunks| && Holds(text, calls, chunks, i)
    requires delta == if chunks[i].hasChoice && chunks[i].text.Some? && chunks[i].text.value != "" then chunks[i].text else None
    ensures Holds(text + (if delta.Some? then delta.value else ""),
                  if chunks[i].hasChoice then Fold(calls, Normalized(chunks[i].deltas)) else calls, chunks, i + 1)
  {
    OneMoreFrame(chunks, i);
    Sequences.Unit(Deltas(chunks[..i]));
    if chunks[i].hasChoice { FoldAppend(map[], Deltas(chunks[..i]), Normalized(chunks[i].deltas)); }
  }

  /** The stream loop: every frame is pushed, then the response is finished. */
  method Accumulate(chunks: seq<Chunk>) returns (finished: Option<string>, calls: seq<FinishedCall>, reason: string)
    ensures IsFinished(calls, Fold(map[], Deltas(chunks)))
    ensures finished.Some? <==> Fold(map[], Deltas(chunks)) == map[] && Texts(chunks) != ""
    ensures finished.Some? ==> finished.value == Texts(chunks)
  {
    var accumulator := new StreamAccumulator();
    for i := 0 to |chunks|
      invariant fresh(accumulator) && Holds(accumulator.text, accumulator.toolCalls, chunks, i)
    {
      ghost var text, held := accumulator.text, accumulator.toolCalls;
      var delta := accumulator.Push(chunks[i]);
      HoldsNext(text, held, chunks, i, delta);
    }
    assert chunks[..|chunks|] == chunks;
    finished, calls, reason := accumulator.Finish();
  }

  /** Two streams whose deltas agree index by index finish with the same calls, however frames and indices interleave. */
  lemma {:induction false} FramingIrrelevant(a: seq<Chunk>, b: seq<Chunk>, x: seq<FinishedCall>, y: seq<FinishedCall>)
    requires forall index :: Only(Deltas(a), index) == Only(Deltas(b), index)
    requires IsFinished(x, Fold(map[], Deltas(a))) && IsFinished(y, Fold(map[], Deltas(b)))
    ensures x == y
  {
    InterleavingIrrelevant(Deltas(a), Deltas(b));
    FinishedUnique(x, y, Fold(map[], Deltas(a)));
  }
}
