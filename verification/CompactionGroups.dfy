/** Compaction and tool-result groups: whole groups only, and when the latest one fits. */
module CompactionGroups {
  import opened Options
  import Sequences
  import opened Transcript
  import opened Compaction
  import opened CompactionSafety

  // ----- well-formed in, well-formed out -----

  lemma {:induction false} CoreOfPiece(p: seq<Message>, rest: seq<Message>)
    requires IsPiece(p)
    ensures Core(p + rest) == if IsMarker(p[0]) then Core(rest) else p + Core(rest)
  {
    CoreAppend(p, rest);
    PieceAppend(p, rest, false);
    assert [] + Core(rest) == Core(rest);
    if IsMarker(p[0]) { CoreOfMarker(p[0]); assert p == [p[0]]; } else { CoreUnmarked(p); }
  }

  lemma {:induction false} CorePieceWellFormed(p: seq<Message>, rest: seq<Message>)
    requires IsPiece(p) && WellFormed(Core(rest), true)
    ensures WellFormed(Core(p + rest), true)
  {
    CoreOfPiece(p, rest);
    PieceAppend(p, Core(rest), true);
  }

  lemma {:induction false} CoreWellFormed(ms: seq<Message>, saw: bool)
    requires WellFormed(ms, saw)
    ensures WellFormed(Core(ms), true)
  {
    if ms != [] {
      var n := FirstPiece(ms, saw);
      var p, rest := ms[..n], ms[n..];
      assert ms == p + rest;
      CoreWellFormed(rest, saw || IsMarker(ms[0]));
      CorePieceWellFormed(p, rest);
    }
  }

  /** In a well-formed transcript the units are its pieces. */
  lemma {:induction false} UnitIsPiece(core: seq<Message>, i: nat) returns (n: nat)
    requires i < |core| && WellFormed(core[i..], true)
    ensures 0 < n <= |core| - i && IsPiece(core[i..i + n]) && !IsMarker(core[i]) && WellFormed(core[i + n..], true)
    ensures UnitAt(core, i) == Unit(i, i + n)
  {
    n := FirstPiece(core[i..], true);
    assert core[i..][..n] == core[i..i + n] && core[i..][n..] == core[i + n..];
    var p := core[i..i + n];
    if Requests(core[i]) {
      assert p + [] == p;
      GroupPrefix(p, []);
      assert forall k :: i < k < i + n ==> core[k] == p[1..][k - i - 1];
      assert i + n < |core| ==> core[i + n] == core[i + n..][0];
    }
  }

  /** From index i on, every unit is a piece. */
  ghost predicate Tiled(core: seq<Message>, i: nat)
    requires i <= |core|
    decreases |core| - i
  {
    i < |core| ==> IsPiece(core[i..UnitAt(core, i).hi]) && !IsMarker(core[i]) && Tiled(core, UnitAt(core, i).hi)
  }

  lemma {:induction false} WellFormedTiled(core: seq<Message>, i: nat)
    requires i <= |core| && WellFormed(core[i..], true)
    ensures Tiled(core, i)
    decreases |core| - i
  {
    if i < |core| {
      var n := UnitIsPiece(core, i);
      WellFormedTiled(core, i + n);
    }
  }

  lemma {:induction false} ExtractBlock(core: seq<Message>, selected: set<nat>, i: nat, j: nat)
    requires i <= j <= |core|
    ensures Covers(selected, Unit(i, j)) ==> Extract(core, selected, i) == core[i..j] + Extract(core, selected, j)
    ensures Avoids(selected, Unit(i, j)) ==> Extract(core, selected, i) == Extract(core, selected, j)
    decreases j - i
  {
    if i < j {
      ExtractBlock(core, selected, i + 1, j);
      assert core[i..j] == [core[i]] + core[i + 1..j];
      Sequences.Associative([core[i]], core[i + 1..j], Extract(core, selected, j));
      Sequences.Unit(Extract(core, selected, i + 1));
    }
  }

  lemma {:induction false} ExtractPiece(core: seq<Message>, selected: set<nat>, u: Unit)
    requires u.lo < u.hi <= |core| && IsPiece(core[u.lo..u.hi]) && !IsMarker(core[u.lo])
    requires Covers(selected, u) || Avoids(selected, u)
    requires WellFormed(Extract(core, selected, u.hi), true)
    ensures WellFormed(Extract(core, selected, u.lo), true)
  {
    ExtractBlock(core, selected, u.lo, u.hi);
    if Covers(selected, u) { PieceAppend(core[u.lo..u.hi], Extract(core, selected, u.hi), true); }
  }

  lemma {:induction false} ExtractWellFormed(core: seq<Message>, selected: set<nat>, i: nat)
    requires i <= |core| && Tiled(core, i)
    requires forall u :: u in Units(core, i) ==> Covers(selected, u) || Avoids(selected, u)
    ensures WellFormed(Extract(core, selected, i), true)
    decreases |core| - i
  {
    if i < |core| {
      var u := UnitAt(core, i);
      assert Units(core, i) == [u] + Units(core, u.hi) && u in Units(core, i);
      ExtractWellFormed(core, selected, u.hi);
      ExtractPiece(core, selected, u);
    }
  }

  /** A transcript may be cut behind a system message. */
  lemma {:induction false} SplitBehindSystem(ms: seq<Message>, k: nat)
    requires WellFormed(ms, true) && k < |ms| && ms[k].System?
    ensures WellFormed(ms[..k + 1], true) && WellFormed(ms[k + 1..], true)
  {
    if k == 0 {
      assert ms[..1][1..] == [];
    } else {
      var n := FirstPiece(ms, true);
      SystemBehindPiece(ms, n, k);
      assert ms[n..][k - n] == ms[k];
      SplitBehindSystem(ms[n..], k - n);
      SplitBehindPiece(ms, n, k);
    }
  }

  lemma {:induction false} SplitBehindPiece(ms: seq<Message>, n: nat, k: nat)
    requires 0 < n <= k < |ms| && IsPiece(ms[..n]) && !IsMarker(ms[0])
    requires WellFormed(ms[n..][..k - n + 1], true) && WellFormed(ms[n..][k - n + 1..], true)
    ensures WellFormed(ms[..k + 1], true) && WellFormed(ms[k + 1..], true)
  {
    assert ms[..k + 1] == ms[..n] + ms[n..][..k - n + 1] && ms[n..][k - n + 1..] == ms[k + 1..];
    PieceAppend(ms[..n], ms[n..][..k - n + 1], true);
  }

  lemma {:induction false} SystemBehindPiece(ms: seq<Message>, n: nat, k: nat)
    requires 0 < n <= |ms| && IsPiece(ms[..n]) && 0 < k < |ms| && ms[k].System?
    ensures k >= n
  {
    if Requests(ms[0]) {
      Sequences.Unit(ms[..n]);
      GroupPrefix(ms[..n], []);
      assert forall j :: 0 < j < n ==> ms[..n][1..][j - 1] == ms[j];
    }
  }

  lemma {:induction false} MarkerInserted(retained: seq<Message>, dropped: nat)
    requires WellFormed(retained, true) && !HasMarker(retained)
    ensures WellFormed(WithMarker(retained, dropped), false)
  {
    var k := SystemIndex(retained, 0);
    var a, m, b := retained[..k + 1], [Marker(dropped)], retained[k + 1..];
    if k >= 0 { SplitBehindSystem(retained, k); } else { assert a == [] && b == retained; }
    assert retained == a + b;
    MarkerSplit(a, b);
    WellFormedWeaken(a, true, false);
    assert m[1..] == [];
    WellFormedAppend(a, m, false);
    assert (a + m)[|a|] == m[0];
    WellFormedAppend(a + m, b, false);
  }

  /** Compaction of a well-formed transcript is well formed, so normalization leaves it as it is. */
  lemma {:induction false} CompactWellFormed(ms: seq<Message>, maxMessages: int, goal: Message)
    requires WellFormed(ms, false) && goal.User?
    ensures WellFormed(Compact(ms, maxMessages, goal), false)
  {
    if maxMessages > 0 {
      RetainedWellFormed(ms, maxMessages, goal);
      RetainedBounds(ms, maxMessages, goal);
      CompactShape(ms, maxMessages, goal);
      var retained := Retained(ms, maxMessages, goal);
      if Marks(ms, maxMessages, goal) {
        MarkerInserted(retained, DroppedBy(ms, maxMessages, goal));
      } else {
        WellFormedWeaken(retained, true, false);
      }
    }
  }

  lemma {:induction false} RetainedWellFormed(ms: seq<Message>, limit: nat, goal: Message)
    requires WellFormed(ms, false) && goal.User? && limit >= 1
    ensures WellFormed(Retained(ms, limit, goal), true)
  {
    var core := Core(ms);
    var slots := Slots(core, Dropped(ms), limit, goal);
    var selected := Select(core, limit, goal, slots);
    CoreWellFormed(ms, false);
    assert core[0..] == core;
    forall u | u in Units(core, 0) ensures Covers(selected, u) || Avoids(selected, u) {
      SelectWhole(core, limit, goal, slots, u);
    }
    WellFormedTiled(core, 0);
    ExtractWellFormed(core, selected, 0);
  }

  // ----- the latest tool group -----

  predicate AnsweredAt(ms: seq<Message>, i: nat) {
    i < |ms| && Requests(ms[i]) && |ms| - i > |ms[i].calls| && Answers(ms[i].calls, ms[i + 1..i + 1 + |ms[i].calls|])
  }

  /** The last answered request among the first n messages, with its results. */
  function LatestFrom(ms: seq<Message>, n: nat): Option<seq<Message>>
    requires n <= |ms|
  {
    if n == 0 then None
    else if AnsweredAt(ms, n - 1) then Some(ms[n - 1..n + |ms[n - 1].calls|])
    else LatestFrom(ms, n - 1)
  }

  method LatestToolGroup(ms: seq<Message>) returns (group: Option<seq<Message>>)
    ensures group == LatestFrom(ms, |ms|)
  {
    var n := |ms|;
    while n > 0
      invariant 0 <= n <= |ms| && LatestFrom(ms, |ms|) == LatestFrom(ms, n)
    {
      n := n - 1;
      var answered := AnsweredAt(ms, n);
      if answered { return Some(ms[n..n + 1 + |ms[n].calls|]); }
    }
    group := None;
  }

  function OrElse<T>(a: Option<T>, b: Option<T>): Option<T> {
    if a.Some? then a else b
  }

  lemma {:induction false} AnsweredShift(a: seq<Message>, b: seq<Message>, i: nat)
    requires i < |b|
    ensures AnsweredAt(a + b, |a| + i) <==> AnsweredAt(b, i)
    ensures AnsweredAt(b, i) ==> (a + b)[|a| + i..|a| + i + 1 + |b[i].calls|] == b[i..i + 1 + |b[i].calls|]
  {
    assert (a + b)[|a| + i] == b[i];
    if Requests(b[i]) && |b| - i > |b[i].calls| {
      var m := |b[i].calls|;
      assert (a + b)[|a| + i + 1..|a| + i + 1 + m] == b[i + 1..i + 1 + m];
      assert (a + b)[|a| + i..|a| + i + 1 + m] == b[i..i + 1 + m];
    }
  }

  lemma {:induction false} LatestShift(a: seq<Message>, b: seq<Message>, k: nat)
    requires k <= |b|
    ensures LatestFrom(a + b, |a| + k) == OrElse(LatestFrom(b, k), LatestFrom(a + b, |a|))
  {
    if k > 0 {
      LatestShift(a, b, k - 1);
      AnsweredShift(a, b, k - 1);
      assert (a + b)[|a| + k - 1] == b[k - 1];
    }
  }

  lemma {:induction false} LatestInPiece(p: seq<Message>, rest: seq<Message>, n: nat)
    requires IsPiece(p) && 1 <= n <= |p|
    ensures LatestFrom(p + rest, n) == if Requests(p[0]) then Some(p) else None
  {
    var ms := p + rest;
    assert ms[0] == p[0];
    if Requests(p[0]) {
      assert p + [] == p;
      GroupPrefix(p, []);
      assert forall k :: 0 < k < |p| ==> ms[k] == p[1..][k - 1];
      assert ms[0..|p|] == p && ms[1..|p|] == p[1..];
    }
    if n > 1 { LatestInPiece(p, rest, n - 1); }
  }

  /** The latest group of a piece and what follows it. */
  lemma {:induction false} LatestOfPiece(p: seq<Message>, rest: seq<Message>)
    requires IsPiece(p)
    ensures LatestFrom(p + rest, |p + rest|) == OrElse(LatestFrom(rest, |rest|), if Requests(p[0]) then Some(p) else None)
  {
    LatestShift(p, rest, |rest|);
    LatestInPiece(p, rest, |p|);
  }

  lemma {:induction false} LatestOfCorePiece(p: seq<Message>, rest: seq<Message>)
    requires IsPiece(p) && LatestFrom(Core(rest), |Core(rest)|) == LatestFrom(rest, |rest|)
    ensures LatestFrom(Core(p + rest), |Core(p + rest)|) == LatestFrom(p + rest, |p + rest|)
  {
    CoreOfPiece(p, rest);
    LatestOfPiece(p, rest);
    if !IsMarker(p[0]) { LatestOfPiece(p, Core(rest)); }
  }

  lemma {:induction false} LatestOfCore(ms: seq<Message>, saw: bool)
    requires WellFormed(ms, saw)
    ensures LatestFrom(Core(ms), |Core(ms)|) == LatestFrom(ms, |ms|)
  {
    if ms != [] {
      var n := FirstPiece(ms, saw);
      var p, rest := ms[..n], ms[n..];
      assert ms == p + rest;
      LatestOfCore(rest, saw || IsMarker(ms[0]));
      LatestOfCorePiece(p, rest);
    }
  }

  lemma {:induction false} LatestUnitCons(core: seq<Message>, u: Unit, rest: seq<Unit>, k: nat)
    requires u.lo < |core| && Inside([u] + rest, 0, |core|) && Inside(rest, 0, |core|) && k <= |rest|
    ensures LatestAmong(core, [u] + rest, k + 1) == OrElse(LatestAmong(core, rest, k), if Requests(core[u.lo]) then Some(u) else None)
  {
    if k > 0 {
      LatestUnitCons(core, u, rest, k - 1);
      assert ([u] + rest)[k] == rest[k - 1];
    }
  }

  lemma {:induction false} UnitsInside(core: seq<Message>, i: nat)
    requires i <= |core|
    ensures Inside(Units(core, i), 0, |core|)
  {
    UnitsApart(core, i);
  }

  function LatestUnitFrom(core: seq<Message>, i: nat): (u: Option<Unit>)
    requires i <= |core|
    ensures u.Some? ==> u.value.lo < u.value.hi <= |core|
  {
    UnitsInside(core, i);
    LatestAmong(core, Units(core, i), |Units(core, i)|)
  }

  function Messages(core: seq<Message>, u: Option<Unit>): Option<seq<Message>>
    requires u.Some? ==> u.value.lo <= u.value.hi <= |core|
  {
    if u.Some? then Some(core[u.value.lo..u.value.hi]) else None
  }

  /** The unit at index i, if it requests tools. */
  function RequestAt(core: seq<Message>, i: nat): (u: Option<Unit>)
    requires i < |core|
    ensures u.Some? ==> u.value.lo < u.value.hi <= |core|
  {
    if Requests(core[i]) then Some(UnitAt(core, i)) else None
  }

  lemma {:induction false} LatestUnitStep(core: seq<Message>, i: nat)
    requires i < |core|
    ensures LatestUnitFrom(core, i) == OrElse(LatestUnitFrom(core, UnitAt(core, i).hi), RequestAt(core, i))
  {
    var rest := Units(core, UnitAt(core, i).hi);
    UnitsInside(core, i);
    UnitsInside(core, UnitAt(core, i).hi);
    LatestUnitCons(core, UnitAt(core, i), rest, |rest|);
  }

  lemma {:induction false} LatestGroupStep(core: seq<Message>, i: nat)
    requires i < |core| && IsPiece(core[i..UnitAt(core, i).hi])
    ensures var j := UnitAt(core, i).hi;
            LatestFrom(core[i..], |core| - i) == OrElse(LatestFrom(core[j..], |core| - j), Messages(core, RequestAt(core, i)))
  {
    var j := UnitAt(core, i).hi;
    assert core[i..] == core[i..j] + core[j..] && core[i..j][0] == core[i];
    LatestOfPiece(core[i..j], core[j..]);
  }

  lemma {:induction false} MessagesOrElse(core: seq<Message>, a: Option<Unit>, b: Option<Unit>)
    requires (a.Some? ==> a.value.lo <= a.value.hi <= |core|) && (b.Some? ==> b.value.lo <= b.value.hi <= |core|)
    ensures Messages(core, OrElse(a, b)) == OrElse(Messages(core, a), Messages(core, b))
  {
  }

  /** In a well-formed transcript the latest tool unit is the latest group. */
  lemma {:induction false} LatestUnitIsGroup(core: seq<Message>, i: nat)
    requires i <= |core| && Tiled(core, i)
    ensures LatestFrom(core[i..], |core| - i) == Messages(core, LatestUnitFrom(core, i))
    decreases |core| - i
  {
    if i < |core| {
      LatestUnitIsGroup(core, UnitAt(core, i).hi);
      LatestGroupStep(core, i);
      LatestUnitStep(core, i);
      MessagesOrElse(core, LatestUnitFrom(core, UnitAt(core, i).hi), RequestAt(core, i));
    }
  }

  /** The check before a request: every message of the latest group is in the window. */
  predicate GroupFits(ms: seq<Message>, limit: nat, goal: Message) {
    var group := LatestFrom(ms, |ms|);
    group.Some? ==> forall m :: m in group.value ==> m in Compact(ms, limit, goal)
  }

  /** The check itself: the latest group is looked up in the window of the next request. */
  method LatestToolGroupFits(ms: seq<Message>, limit: nat, goal: Message) returns (fits: bool)
    ensures fits <==> GroupFits(ms, limit, goal)
  {
    var group := LatestToolGroup(ms);
    if group.None? { return true; }
    var window := CompactMessages(ms, limit, goal);
    fits := forall m | m in group.value :: m in window;
  }

  /** No other message reads like message k. */
  ghost predicate Unique(ms: seq<Message>, k: nat) {
    k < |ms| && forall i :: 0 <= i < |ms| && i != k ==> ms[i] != ms[k]
  }

  lemma {:induction false} PickedUnit(core: seq<Message>, limit: nat, goal: Message, slots: nat, u: Unit)
    requires u in Units(core, 0) && u.lo in Picked(core, limit, goal, slots)
    ensures u.Size() <= limit - |Required(core, limit, goal)| - slots
  {
    var required := Required(core, limit, goal);
    var candidates := Candidates(Units(core, 0), required);
    UnitsApart(core, 0);
    CandidatesApart(Units(core, 0), required, |core|);
    var v := PickedFrom(candidates, |candidates|, limit - |required| - slots, |core|, u.lo);
    CandidateMembers(Units(core, 0), required, v);
    UnitsShape(core, 0, u);
    SameUnit(Units(core, 0), |core|, u, v, u.lo);
  }

  lemma {:induction false} LatestSelected(core: seq<Message>, limit: nat, goal: Message, slots: nat, u: Unit)
    requires goal.User? && LatestToolUnit(core) == Some(u) && u.lo in Select(core, limit, goal, slots)
    ensures u.Size() <= limit - |BaseRequired(core, limit, goal)|
  {
    if u.lo !in Required(core, limit, goal) { PickedUnit(core, limit, goal, slots, u); }
  }

  lemma {:induction false} ExtractedIndex(core: seq<Message>, selected: set<nat>, k: nat)
    requires Unique(core, k) && core[k] in Extract(core, selected, 0)
    ensures k in selected
  {
    var q := ExtractedFrom(core, selected, 0, core[k]);
  }

  lemma {:induction false} HeadSelected(ms: seq<Message>, limit: nat, goal: Message, k: nat)
    requires limit >= 1 && Unique(Core(ms), k) && Core(ms)[k] in Compact(ms, limit, goal)
    ensures k in Select(Core(ms), limit, goal, Slots(Core(ms), Dropped(ms), limit, goal))
  {
    CompactContents(ms, limit, goal);
    CoreKeeps(Compact(ms, limit, goal), Core(ms)[k]);
    ExtractedIndex(Core(ms), Select(Core(ms), limit, goal, Slots(Core(ms), Dropped(ms), limit, goal)), k);
  }

  /** The latest group is the latest tool unit of the core. */
  lemma {:induction false} LatestGroupUnit(ms: seq<Message>) returns (u: Unit)
    requires WellFormed(ms, false) && LatestFrom(ms, |ms|).Some?
    ensures u.lo < u.hi <= |Core(ms)| && LatestFrom(ms, |ms|).value == Core(ms)[u.lo..u.hi]
    ensures LatestToolUnit(Core(ms)) == Some(u)
  {
    CoreWellFormed(ms, false);
    LatestOfCore(ms, false);
    u := LatestUnitOfCore(Core(ms));
  }

  lemma {:induction false} LatestUnitOfCore(core: seq<Message>) returns (u: Unit)
    requires WellFormed(core, true) && LatestFrom(core, |core|).Some?
    ensures u.lo < u.hi <= |core| && LatestFrom(core, |core|).value == core[u.lo..u.hi]
    ensures LatestToolUnit(core) == Some(u)
  {
    assert core[0..] == core;
    UnitsApart(core, 0);
    WellFormedTiled(core, 0);
    LatestUnitIsGroup(core, 0);
    u := LatestToolUnit(core).value;
  }

  lemma {:induction false} RoomKeepsGroup(ms: seq<Message>, limit: nat, goal: Message, u: Unit)
    requires limit >= 1 && u.lo < u.hi <= |Core(ms)| && u.Size() <= limit - |BaseRequired(Core(ms), limit, goal)|
    requires LatestToolUnit(Core(ms)) == Some(u)
    ensures forall m :: m in Core(ms)[u.lo..u.hi] ==> m in Compact(ms, limit, goal)
  {
    forall m | m in Core(ms)[u.lo..u.hi] ensures m in Compact(ms, limit, goal) {
      var k :| u.lo <= k < u.hi && Core(ms)[k] == m;
      Retains(ms, limit, goal, k);
    }
  }

  /** The messages of the latest tool unit, told apart by position, are all retained exactly when they fit beside goal and system message. */
  lemma {:induction false} LatestUnitSelected(core: seq<Message>, limit: nat, goal: Message, slots: nat, u: Unit)
    requires limit >= 1 && goal.User? && LatestToolUnit(core) == Some(u)
    ensures Covers(Select(core, limit, goal, slots), u) <==> u.Size() <= limit - |BaseRequired(core, limit, goal)|
  {
    assert u.lo < u.hi;
    if u.lo in Select(core, limit, goal, slots) { LatestSelected(core, limit, goal, slots, u); }
    if u.Size() <= limit - |BaseRequired(core, limit, goal)| { assert Covers(Required(core, limit, goal), u); }
  }

  /** The first message of the latest group reads like no other message of the core. */
  ghost predicate HeadUnique(ms: seq<Message>) {
    LatestToolUnit(Core(ms)).Some? ==> Unique(Core(ms), LatestToolUnit(Core(ms)).value.lo)
  }

  /** The latest tool group reaches the provider exactly when it fits beside the goal and the system message. */
  lemma {:induction false} LatestGroupFits(ms: seq<Message>, limit: nat, goal: Message)
    requires limit >= 1 && goal.User? && WellFormed(ms, false) && LatestFrom(ms, |ms|).Some?
    ensures var room := limit - |BaseRequired(Core(ms), limit, goal)|;
            && (|LatestFrom(ms, |ms|).value| <= room ==> GroupFits(ms, limit, goal))
            && (HeadUnique(ms) && GroupFits(ms, limit, goal) ==> |LatestFrom(ms, |ms|).value| <= room)
  {
    var u := LatestGroupUnit(ms);
    if u.Size() <= limit - |BaseRequired(Core(ms), limit, goal)| {
      RoomKeepsGroup(ms, limit, goal, u);
    } else if HeadUnique(ms) {
      var head := Core(ms)[u.lo];
      assert head == LatestFrom(ms, |ms|).value[0];
      if head in Compact(ms, limit, goal) { GroupTooLarge(ms, limit, goal, u); }
    }
  }

  lemma {:induction false} GroupTooLarge(ms: seq<Message>, limit: nat, goal: Message, u: Unit)
    requires limit >= 1 && goal.User? && u.lo < u.hi <= |Core(ms)| && Unique(Core(ms), u.lo)
    requires LatestToolUnit(Core(ms)) == Some(u)
    requires Core(ms)[u.lo] in Compact(ms, limit, goal)
    ensures u.Size() <= limit - |BaseRequired(Core(ms), limit, goal)|
  {
    HeadSelected(ms, limit, goal, u.lo);
    LatestSelected(Core(ms), limit, goal, Slots(Core(ms), Dropped(ms), limit, goal), u);
  }
}
