/** Conversation messages, compaction markers and the normalization of histories. */
module Transcript {
  import opened Options
  import opened Text
  import Sequences

  datatype Call = Call(id: string, name: string, arguments: string)

  /** `ref` is the identity of the message object. */
  datatype Message =
    | System(ref: nat, content: string)
    | User(ref: nat, content: string)
    | Assistant(ref: nat, content: string, calls: seq<Call>)
    | Tool(ref: nat, callId: string, content: string)

  /** Identity given to every copy and to every marker the engine creates. */
  const COPY := 0

  function Clone(m: Message): Message {
    m.(ref := COPY)
  }

  function Clones(ms: seq<Message>): (c: seq<Message>)
    ensures |c| == |ms|
  {
    seq(|ms|, i requires 0 <= i < |ms| => Clone(ms[i]))
  }

  predicate Requests(m: Message) {
    m.Assistant? && m.calls != []
  }

  // ----- compaction markers -----

  const PREFIX := "[Conversation compacted:"

  predicate IsMarker(m: Message) {
    m.System? && StartsWith(m.content, PREFIX)
  }

  function Marker(dropped: nat): (m: Message)
    ensures IsMarker(m)
  {
    var rest := " " + Numeral(dropped, 10) + " earlier message(s) omitted.]";
    PrefixStarts(PREFIX, rest);
    System(COPY, PREFIX + rest)
  }

  function DigitPrefix(s: string): (d: string)
    ensures d <= s && AllDigits(d, 10)
  {
    if s != [] && IsDigit(s[0], 10) then [s[0]] + DigitPrefix(s[1..]) else []
  }

  /** The pattern "compacted:", white space, digits, at the start of s. */
  function MatchHere(s: string): Option<nat> {
    if !("compacted:" <= s) then None
    else
      var digits := DigitPrefix(SkipSpaces(s[10..]));
      if digits == [] then None else Some(Value(digits, 10))
  }

  /** The number in the leftmost match of the pattern, or 0 without a match. */
  function ScanCount(s: string): nat {
    if MatchHere(s).Some? then MatchHere(s).value
    else if s == [] then 0
    else ScanCount(s[1..])
  }

  function MarkerCount(m: Message): nat {
    if IsMarker(m) then ScanCount(m.content) else 0
  }

  lemma {:induction false} ScanSkips(p: string, s: string)
    requires 'c' !in p
    ensures ScanCount(p + s) == ScanCount(s)
  {
    if p == [] {
      assert p + s == s;
    } else {
      assert (p + s)[0] != "compacted:"[0];
      assert (p + s)[1..] == p[1..] + s;
      ScanSkips(p[1..], s);
    }
  }

  lemma {:induction false} DigitsFound(d: string, rest: string)
    requires AllDigits(d, 10) && (rest == [] || !IsDigit(rest[0], 10))
    ensures DigitPrefix(d + rest) == d
  {
    if d == [] {
      assert d + rest == rest;
    } else {
      assert (d + rest)[1..] == d[1..] + rest;
      DigitsFound(d[1..], rest);
    }
  }

  /** Reading a marker returns the count it was written with. */
  lemma {:induction false} MarkerRoundTrip(n: nat)
    ensures MarkerCount(Marker(n)) == n
  {
    var digits, rest := Numeral(n, 10), " earlier message(s) omitted.]";
    var tail := " " + (digits + rest);
    MarkerText(tail);
    assert Marker(n).content == "[Conversation " + ("compacted:" + tail) by { Sequences.Associative(" ", digits, rest); }
    ScanSkips("[Conversation ", "compacted:" + tail);
    MatchFound("compacted:" + tail, tail, digits, rest);
    NumeralValue(n, 10);
  }

  lemma {:induction false} MarkerText(tail: string)
    ensures PREFIX + tail == "[Conversation " + ("compacted:" + tail)
  {
    assert PREFIX == "[Conversation " + "compacted:";
    Sequences.Associative("[Conversation ", "compacted:", tail);
  }

  lemma {:induction false} MatchFound(s: string, tail: string, digits: string, rest: string)
    requires s == "compacted:" + tail && tail == " " + (digits + rest)
    requires digits != [] && AllDigits(digits, 10) && (rest == [] || !IsDigit(rest[0], 10))
    ensures MatchHere(s) == Some(Value(digits, 10))
  {
    assert "compacted:" <= s && s[10..] == tail && tail[1..] == digits + rest;
    DigitNotSpace(digits[0]);
    assert (digits + rest)[0] == digits[0];
    assert SkipSpaces(digits + rest) == digits + rest;
    assert tail[0] == ' ' && SkipSpaces(tail) == SkipSpaces(tail[1..]);
    DigitsFound(digits, rest);
  }

  // ----- normalization -----

  ghost predicate DistinctCalls(calls: seq<Call>) {
    forall i, k :: 0 <= i < k < |calls| ==> calls[i].id != calls[k].id
  }

  /** Exactly one result per call, in call order. */
  predicate Answers(calls: seq<Call>, results: seq<Message>) {
    |results| == |calls| && forall k :: 0 <= k < |calls| ==> results[k].Tool? && results[k].callId == calls[k].id
  }

  /** The head requests tools and is followed by one result per call. */
  ghost predicate CompleteGroup(ms: seq<Message>) {
    && ms != [] && Requests(ms[0]) && DistinctCalls(ms[0].calls)
    && |ms| > |ms[0].calls| && Answers(ms[0].calls, ms[1..|ms[0].calls| + 1])
  }

  /** Only the group itself decides whether it is complete. */
  lemma {:induction false} GroupPrefix(group: seq<Message>, rest: seq<Message>)
    requires group != [] && Requests(group[0]) && |group| == |group[0].calls| + 1
    ensures CompleteGroup(group + rest) <==> DistinctCalls(group[0].calls) && Answers(group[0].calls, group[1..])
  {
    assert (group + rest)[1..|group|] == group[1..];
  }

  /** What normalization keeps of `ms`; `saw` tells that a marker was kept before. */
  ghost function Normalized(ms: seq<Message>, saw: bool): (r: seq<Message>)
    ensures |r| <= |ms|
  {
    if ms == [] then []
    else if ms[0].Tool? then Normalized(ms[1..], saw)
    else if IsMarker(ms[0]) then (if saw then [] else [Clone(ms[0])]) + Normalized(ms[1..], true)
    else if Requests(ms[0]) then
      var n := |ms[0].calls| + 1;
      if CompleteGroup(ms) then Clones(ms[..n]) + Normalized(ms[n..], saw) else Normalized(ms[1..], saw)
    else [Clone(ms[0])] + Normalized(ms[1..], saw)
  }

  /** Tool results only in complete groups, and at most one marker. */
  ghost predicate WellFormed(ms: seq<Message>, saw: bool) {
    if ms == [] then true
    else if ms[0].Tool? then false
    else if IsMarker(ms[0]) then !saw && WellFormed(ms[1..], true)
    else if Requests(ms[0]) then CompleteGroup(ms) && WellFormed(ms[|ms[0].calls| + 1..], saw)
    else WellFormed(ms[1..], saw)
  }

  predicate HasMarker(ms: seq<Message>) {
    exists i :: 0 <= i < |ms| && IsMarker(ms[i])
  }

  lemma {:induction false} MarkerSplit(a: seq<Message>, b: seq<Message>)
    ensures HasMarker(a + b) <==> HasMarker(a) || HasMarker(b)
  {
    assert forall i :: 0 <= i < |a| ==> (a + b)[i] == a[i];
    assert forall i :: 0 <= i < |b| ==> (a + b)[i + |a|] == b[i];
    if i :| 0 <= i < |a + b| && IsMarker((a + b)[i]) {
      assert i >= |a| ==> b[i - |a|] == (a + b)[i];
    }
  }

  /** One message, or one complete group: the pieces a well-formed transcript is made of. */
  ghost predicate IsPiece(p: seq<Message>) {
    p != [] && !p[0].Tool? && (if Requests(p[0]) then |p| == |p[0].calls| + 1 && CompleteGroup(p) else |p| == 1)
  }

  /** A piece in front of a transcript. */
  lemma {:induction false} PieceAppend(p: seq<Message>, rest: seq<Message>, saw: bool)
    requires IsPiece(p)
    ensures WellFormed(p + rest, saw) <==> !(saw && IsMarker(p[0])) && WellFormed(rest, saw || IsMarker(p[0]))
    ensures HasMarker(p) <==> IsMarker(p[0])
  {
    assert (p + rest)[|p|..] == rest && (p + rest)[0] == p[0];
    if Requests(p[0]) {
      GroupPrefix(p, rest);
      assert p + [] == p;
      GroupPrefix(p, []);
      assert forall i :: 1 <= i < |p| ==> p[i] == p[1..][i - 1];
    }
  }

  lemma {:induction false} FirstPiece(ms: seq<Message>, saw: bool) returns (n: nat)
    requires WellFormed(ms, saw) && ms != []
    ensures 0 < n <= |ms| && IsPiece(ms[..n]) && WellFormed(ms[n..], saw || IsMarker(ms[0])) && !(saw && IsMarker(ms[0]))
    ensures n == if Requests(ms[0]) then |ms[0].calls| + 1 else 1
  {
    n := if Requests(ms[0]) then |ms[0].calls| + 1 else 1;
    assert ms[..n] + ms[n..] == ms;
    if Requests(ms[0]) {
      assert ms[..n][1..] == ms[1..n];
      assert ms[..n] + [] == ms[..n];
      GroupPrefix(ms[..n], []);
    }
  }

  lemma {:induction false} PieceBefore(p: seq<Message>, rest: seq<Message>, b: seq<Message>, saw: bool)
    requires IsPiece(p) && !(saw && IsMarker(p[0])) && WellFormed(rest + b, saw || IsMarker(p[0]))
    ensures WellFormed((p + rest) + b, saw)
  {
    Sequences.Associative(p, rest, b);
    PieceAppend(p, rest + b, saw);
  }

  lemma {:induction false} PieceMarkers(p: seq<Message>, rest: seq<Message>)
    requires IsPiece(p)
    ensures HasMarker(p + rest) <==> IsMarker(p[0]) || HasMarker(rest)
  {
    PieceAppend(p, rest, false);
    MarkerSplit(p, rest);
  }

  /** Well-formed parts make a well-formed whole. */
  lemma {:induction false} WellFormedAppend(a: seq<Message>, b: seq<Message>, saw: bool)
    requires WellFormed(a, saw) && WellFormed(b, saw || HasMarker(a))
    ensures WellFormed(a + b, saw)
  {
    if a == [] {
      Sequences.Unit(b);
    } else {
      var n := FirstPiece(a, saw);
      var p, rest := a[..n], a[n..];
      assert a == p + rest && a[0] == p[0];
      PieceMarkers(p, rest);
      WellFormedAppend(rest, b, saw || IsMarker(a[0]));
      PieceBefore(p, rest, b, saw);
    }
  }

  lemma {:induction false} ClonePiece(p: seq<Message>)
    requires IsPiece(p)
    ensures IsPiece(Clones(p)) && (IsMarker(Clones(p)[0]) <==> IsMarker(p[0]))
  {
    var c := Clones(p);
    assert forall i :: 0 <= i < |p| ==> c[i] == Clone(p[i]);
    if Requests(p[0]) {
      assert p + [] == p && c + [] == c;
      GroupPrefix(p, []);
      GroupPrefix(c, []);
      assert forall i :: 0 <= i < |p| - 1 ==> c[1..][i] == Clone(p[1..][i]);
    }
  }

  /** The head of ms, or the group it opens, is kept. */
  ghost predicate IsKept(ms: seq<Message>, saw: bool)
    requires ms != []
  {
    !ms[0].Tool? && !(IsMarker(ms[0]) && saw) && (Requests(ms[0]) ==> CompleteGroup(ms))
  }

  /** One step of normalization: a piece is copied whole, or the head is dropped. */
  lemma {:induction false} NormalizeStep(ms: seq<Message>, saw: bool) returns (n: nat)
    requires ms != []
    ensures 0 < n <= |ms| && n == (if CompleteGroup(ms) then |ms[0].calls| + 1 else 1)
    ensures WellFormed(ms, saw) <==> IsKept(ms, saw) && WellFormed(ms[n..], saw || IsMarker(ms[0]))
    ensures IsKept(ms, saw) ==> IsPiece(ms[..n]) && Normalized(ms, saw) == Clones(ms[..n]) + Normalized(ms[n..], saw || IsMarker(ms[0]))
    ensures !IsKept(ms, saw) ==> n == 1 && Normalized(ms, saw) == Normalized(ms[1..], saw || IsMarker(ms[0]))
  {
    n := if CompleteGroup(ms) then |ms[0].calls| + 1 else 1;
    if CompleteGroup(ms) {
      assert ms[..n][1..] == ms[1..n] && ms[..n] + [] == ms[..n];
      GroupPrefix(ms[..n], []);
    } else {
      assert ms[..1] == [ms[0]] && Clones(ms[..1]) == [Clone(ms[0])];
    }
  }

  lemma {:induction false} ClonesSplit(ms: seq<Message>, n: nat)
    requires n <= |ms|
    ensures Clones(ms) == Clones(ms[..n]) + Clones(ms[n..])
  {
  }

  lemma {:induction false} SameFront<T>(front: seq<T>, a: seq<T>, b: seq<T>)
    ensures front + a == front + b <==> a == b
  {
    assert (front + a)[|front|..] == a && (front + b)[|front|..] == b;
  }

  /** Normalization copies a transcript unchanged exactly when the transcript is well formed. */
  lemma {:induction false} NormalizeIdentity(ms: seq<Message>, saw: bool)
    ensures Normalized(ms, saw) == Clones(ms) <==> WellFormed(ms, saw)
  {
    if ms != [] {
      var n := NormalizeStep(ms, saw);
      var rest := Normalized(ms[n..], saw || IsMarker(ms[0]));
      NormalizeIdentity(ms[n..], saw || IsMarker(ms[0]));
      ClonesSplit(ms, n);
      SameFront(Clones(ms[..n]), rest, Clones(ms[n..]));
      if !IsKept(ms, saw) { assert |Normalized(ms, saw)| < |Clones(ms)|; }
    }
  }

  /** Whatever the input, what normalization keeps is well formed. */
  lemma {:induction false} NormalizedWellFormed(ms: seq<Message>, saw: bool)
    ensures WellFormed(Normalized(ms, saw), saw)
  {
    if ms != [] {
      var n := NormalizeStep(ms, saw);
      NormalizedWellFormed(ms[n..], saw || IsMarker(ms[0]));
      if IsKept(ms, saw) {
        ClonePiece(ms[..n]);
        PieceAppend(Clones(ms[..n]), Normalized(ms[n..], saw || IsMarker(ms[0])), saw);
      } else {
        WellFormedWeaken(Normalized(ms[1..], saw || IsMarker(ms[0])), saw || IsMarker(ms[0]), saw);
      }
    }
  }

  lemma {:induction false} WellFormedWeaken(ms: seq<Message>, strict: bool, saw: bool)
    requires WellFormed(ms, strict) && (saw ==> strict)
    ensures WellFormed(ms, saw)
  {
    if ms != [] {
      var n := if Requests(ms[0]) then |ms[0].calls| + 1 else 1;
      WellFormedWeaken(ms[n..], strict || IsMarker(ms[0]), saw || IsMarker(ms[0]));
    }
  }

  /** Normalizing twice changes nothing. */
  lemma {:induction false} NormalizeIdempotent(ms: seq<Message>)
    ensures Normalized(Normalized(ms, false), false) == Clones(Normalized(ms, false))
  {
    NormalizedWellFormed(ms, false);
    NormalizeIdentity(Normalized(ms, false), false);
  }

  /** The loop of the normalization. */
  method NormalizeHistoryMessages(input: seq<Message>) returns (normalized: seq<Message>)
    ensures normalized == Normalized(input, false)
  {
    normalized := [];
    var sawMarker := false;
    var index := 0;
    while index < |input|
      invariant 0 <= index <= |input|
      invariant Normalized(input, false) == normalized + Normalized(input[index..], sawMarker)
    {
      var message := input[index];
      var pushed, next := [], index + 1;
      if message.Tool? {
      } else if IsMarker(message) {
        if !sawMarker { pushed := [Clone(message)]; }
      } else if Requests(message) {
        var complete := IsComplete(input, index);
        if complete {
          next := index + 1 + |message.calls|;
          pushed := Clones(input[index..next]);
        }
      } else {
        pushed := [Clone(message)];
      }
      LoopStep(input, index, next, sawMarker, pushed, normalized);
      if IsMarker(message) { sawMarker := true; }
      normalized := normalized + pushed;
      index := next;
    }
  }

  lemma {:induction false} LoopStep(input: seq<Message>, index: nat, next: nat, saw: bool, pushed: seq<Message>, before: seq<Message>)
    requires index < |input|
    requires next == if CompleteGroup(input[index..]) then index + 1 + |input[index].calls| else index + 1
    requires pushed == if IsKept(input[index..], saw) then Clones(input[index..next]) else []
    ensures index < next <= |input|
    ensures before + Normalized(input[index..], saw) == (before + pushed) + Normalized(input[next..], saw || IsMarker(input[index]))
  {
    StepFrom(input, index, next, saw, pushed);
    Sequences.Associative(before, pushed, Normalized(input[next..], saw || IsMarker(input[index])));
  }

  lemma {:induction false} StepFrom(input: seq<Message>, index: nat, next: nat, saw: bool, pushed: seq<Message>)
    requires index < |input|
    requires next == if CompleteGroup(input[index..]) then index + 1 + |input[index].calls| else index + 1
    requires pushed == if IsKept(input[index..], saw) then Clones(input[index..next]) else []
    ensures index < next <= |input|
    ensures Normalized(input[index..], saw) == pushed + Normalized(input[next..], saw || IsMarker(input[index]))
  {
    var rest := input[index..];
    var n := NormalizeStep(rest, saw);
    assert rest[n..] == input[next..] && rest[..n] == input[index..next];
    Sequences.Unit(Normalized(input[next..], saw || IsMarker(input[index])));
  }

  /** The three conditions the normalization puts on a group. */
  method IsComplete(input: seq<Message>, index: nat) returns (complete: bool)
    requires index < |input| && Requests(input[index])
    ensures complete <==> CompleteGroup(input[index..])
  {
    var calls := input[index].calls;
    ghost var rest := input[index..];
    var ids: set<string> := {};
    for k := 0 to |calls|
      invariant forall s :: s in ids <==> exists i :: 0 <= i < k && calls[i].id == s
      invariant forall i, j :: 0 <= i < j < k ==> calls[i].id != calls[j].id
    {
      if calls[k].id in ids { return false; }
      ids := ids + {calls[k].id};
    }
    if |input| - index - 1 < |calls| { return false; }
    var results := input[index + 1..index + 1 + |calls|];
    assert rest[1..|calls| + 1] == results && rest[0].calls == calls;
    assert CompleteGroup(rest) <==> Answers(calls, results);
    for k := 0 to |results|
      invariant forall i :: 0 <= i < k ==> results[i].Tool? && results[i].callId == calls[i].id
    {
      if !results[k].Tool? || results[k].callId != calls[k].id { return false; }
    }
    return true;
  }
}
