/** The two-click cuboid tool: a per-user session that records an anchor on
    the first block placement and, on the second, fills the rectangle between
    the two blocks. These are the specification functions the stateful
    methods of `Plugin.CommandPlugin` are proved against. */
module CuboidTool {
  import opened Host

  const StartMsg: string := "Cuboid start, place first block"
  const FirstDone: string := "First block done, place second"
  const CuboidDone: string := "Cuboid done"

  /** `cuboidStruct`: the anchor, its block type, and where the session is.
      `state` 0 awaits the first block, 1 the second. */
  datatype Session = Session(x: int, y: sbyte, z: int, block: byte, active: bool, state: int)

  /** The session `cuboid` creates: `operator[]` value-initialises the record
      (all zero), then `active` and `state` are set. */
  const Fresh: Session := Session(0, 0, 0, 0, true, 0)

  /** The sessions after an event, and the host calls the event made. */
  datatype Step = Step(sessions: map<string, Session>, effects: seq<Effect>)

  /** Every session the plugin creates is active and in state 0 or 1. */
  ghost predicate SessionsWellFormed(sessions: map<string, Session>) {
    forall u :: u in sessions ==> sessions[u].active && 0 <= sessions[u].state <= 1
  }

  /** `cuboid(user)`: any older session of `user` is dropped, a fresh one takes its place. */
  function Start(sessions: map<string, Session>, user: string): (r: map<string, Session>)
    ensures user in r && r[user] == Fresh
    ensures forall u :: u != user ==> (u in r <==> u in sessions) && (u in r ==> r[u] == sessions[u])
  {
    sessions[user := Fresh]
  }

  function Min(a: int, b: int): int { if a < b then a else b }
  function Max(a: int, b: int): int { if a < b then b else a }

  /** The `setBlock` calls of one pass of the inner loop: `xp` fixed, `z` from `zs` to `ze`. */
  function Row(xp: int, zs: int, ze: int, y: int, block: byte): seq<Effect>
    decreases ze - zs + 1
  {
    if ze < zs then [] else Row(xp, zs, ze - 1, y, block) + [SetBlock(xp, y, ze, block, 0)]
  }

  /** The `setBlock` calls of the nested loop: rows for `x` from `xs` to `xe`. */
  function Fill(xs: int, xe: int, zs: int, ze: int, y: int, block: byte): seq<Effect>
    decreases xe - xs + 1
  {
    if xe < xs then [] else Fill(xs, xe - 1, zs, ze, y, block) + Row(xe, zs, ze, y, block)
  }

  /** A `setBlock` of `block` with metadata 0 at height `y` inside the rectangle. */
  predicate InRect(e: Effect, xs: int, xe: int, zs: int, ze: int, y: int, block: byte) {
    e.SetBlock? && xs <= e.x <= xe && zs <= e.z <= ze && e.y == y && e.block == block && e.meta == 0
  }

  /** `calls` sets every block of the rectangle exactly once, and nothing else. */
  ghost predicate SetsEachOnce(calls: seq<Effect>, xs: int, xe: int, zs: int, ze: int, y: int, block: byte) {
    forall e :: multiset(calls)[e] == (if InRect(e, xs, xe, zs, ze, y, block) then 1 else 0)
  }

  lemma {:induction false} RowOnce(xp: int, zs: int, ze: int, y: int, block: byte)
    ensures SetsEachOnce(Row(xp, zs, ze, y, block), xp, xp, zs, ze, y, block)
    decreases ze - zs + 1
  {
    if ze >= zs {
      var prev := Row(xp, zs, ze - 1, y, block);
      RowOnce(xp, zs, ze - 1, y, block);
      var last := SetBlock(xp, y, ze, block, 0);
      assert multiset(Row(xp, zs, ze, y, block)) == multiset(prev) + multiset{last};
      forall e
        ensures multiset(Row(xp, zs, ze, y, block))[e] == (if InRect(e, xp, xp, zs, ze, y, block) then 1 else 0)
      {
        assert InRect(e, xp, xp, zs, ze, y, block) <==> InRect(e, xp, xp, zs, ze - 1, y, block) || e == last;
      }
    }
  }

  /** The fill sets every block of the rectangle exactly once and nothing else. */
  lemma {:induction false} FillOnce(xs: int, xe: int, zs: int, ze: int, y: int, block: byte)
    ensures SetsEachOnce(Fill(xs, xe, zs, ze, y, block), xs, xe, zs, ze, y, block)
    decreases xe - xs + 1
  {
    if xe >= xs {
      var prev := Fill(xs, xe - 1, zs, ze, y, block);
      var row := Row(xe, zs, ze, y, block);
      FillOnce(xs, xe - 1, zs, ze, y, block);
      RowOnce(xe, zs, ze, y, block);
      assert multiset(Fill(xs, xe, zs, ze, y, block)) == multiset(prev) + multiset(row);
      forall e
        ensures multiset(Fill(xs, xe, zs, ze, y, block))[e] == (if InRect(e, xs, xe, zs, ze, y, block) then 1 else 0)
      {
        assert multiset(prev)[e] == (if InRect(e, xs, xe - 1, zs, ze, y, block) then 1 else 0);
        assert multiset(row)[e] == (if InRect(e, xe, xe, zs, ze, y, block) then 1 else 0);
      }
    }
  }

  /** The fill makes one call per block of the rectangle. */
  lemma {:induction false} FillLength(xs: int, xe: int, zs: int, ze: int, y: int, block: byte)
    requires xs <= xe && zs <= ze
    ensures |Fill(xs, xe, zs, ze, y, block)| == (xe - xs + 1) * (ze - zs + 1)
    decreases xe - xs + 1
  {
    RowLength(xe, zs, ze, y, block);
    if xs < xe {
      FillLength(xs, xe - 1, zs, ze, y, block);
      assert (xe - xs + 1) * (ze - zs + 1) == (xe - xs) * (ze - zs + 1) + (ze - zs + 1);
    }
  }

  lemma {:induction false} RowLength(xp: int, zs: int, ze: int, y: int, block: byte)
    requires zs <= ze + 1
    ensures |Row(xp, zs, ze, y, block)| == ze - zs + 1
    decreases ze - zs + 1
  {
    if zs <= ze {
      RowLength(xp, zs, ze - 1, y, block);
    }
  }

  /** The anchor and the second block have the same type. The code compares
      a `char` with an `unsigned char`; this is the comparison it intends. */
  predicate BlockMatches(anchor: byte, placed: byte) {
    anchor == placed
  }

  /** `blockPlacePreFunction` on the sessions: what the placement of `block`
      at `(x, y, z)` by `user` does, with the block types compared as
      `BlockMatches` intends rather than as line 339 compares them. */
  function Place(sessions: map<string, Session>, user: string, x: int, y: sbyte, z: int, block: byte): Step {
    if user !in sessions then Step(sessions, [])
    else
      var s := sessions[user];
      if !s.active then Step(sessions, [])
      else if s.state == 0 then
        Step(sessions[user := s.(state := 1, x := x, y := y, z := z, block := block)], [SendMsg(user, FirstDone)])
      else if s.state == 1 then
        var fill :=
          if BlockMatches(s.block, block) && s.y == y then
            Fill(Min(x, s.x), Max(x, s.x), Min(z, s.z), Max(z, s.z), y as int, block) + [SendMsg(user, CuboidDone)]
          else [];
        Step(sessions - {user}, fill)
      else Step(sessions, [])
  }

  /** A placement never touches another user's session. */
  lemma PlaceKeepsOthers(sessions: map<string, Session>, user: string, x: int, y: sbyte, z: int, block: byte)
    ensures var r := Place(sessions, user, x, y, z, block).sessions;
      forall u :: u != user ==> (u in r <==> u in sessions) && (u in r ==> r[u] == sessions[u])
  {
  }

  /** The session machine: no session, first click, second click. */
  lemma PlaceTransitions(sessions: map<string, Session>, user: string, x: int, y: sbyte, z: int, block: byte)
    requires SessionsWellFormed(sessions)
    ensures user !in sessions ==> Place(sessions, user, x, y, z, block) == Step(sessions, [])
    ensures user in sessions && sessions[user].state == 0 ==>
      var s := sessions[user];
      Place(sessions, user, x, y, z, block) ==
        Step(sessions[user := Session(x, y, z, block, true, 1)], [SendMsg(user, FirstDone)])
    ensures user in sessions && sessions[user].state == 1 ==>
      user !in Place(sessions, user, x, y, z, block).sessions
    ensures (user in sessions && sessions[user].state == 1 &&
             !(sessions[user].block == block && sessions[user].y == y)) ==>
      Place(sessions, user, x, y, z, block).effects == []
    ensures SessionsWellFormed(Place(sessions, user, x, y, z, block).sessions)
  {
  }

  /** The second click on a matching block and height sets every block of the
      rectangle spanned by the two clicks exactly once, at the shared height,
      and nothing else, then reports "Cuboid done". */
  lemma SecondPlacementFills(sessions: map<string, Session>, user: string, x: int, y: sbyte, z: int, block: byte)
    requires user in sessions && sessions[user].active && sessions[user].state == 1
    requires sessions[user].block == block && sessions[user].y == y
    ensures var s := sessions[user];
      var xs, xe, zs, ze := Min(x, s.x), Max(x, s.x), Min(z, s.z), Max(z, s.z);
      var fill := Fill(xs, xe, zs, ze, y as int, block);
      Place(sessions, user, x, y, z, block).effects == fill + [SendMsg(user, CuboidDone)] &&
      |fill| == (xe - xs + 1) * (ze - zs + 1) &&
      SetsEachOnce(fill, xs, xe, zs, ze, y as int, block)
  {
    var s := sessions[user];
    var xs, xe, zs, ze := Min(x, s.x), Max(x, s.x), Min(z, s.z), Max(z, s.z);
    FillOnce(xs, xe, zs, ze, y as int, block);
    FillLength(xs, xe, zs, ze, y as int, block);
  }

  /** The anchor block as line 333 stores it: an `unsigned char` converted to
      a signed `char`, which wraps ids of 128 and above. */
  function StoredAsChar(b: byte): sbyte {
    if b < 128 then b as int as sbyte else (b as int - 256) as sbyte
  }

  /** Line 339 as written: the stored `char` and the placed `unsigned char`,
      compared after both are promoted to `int`. */
  predicate BlockMatchesAsWritten(anchor: byte, placed: byte) {
    StoredAsChar(anchor) as int == placed as int
  }

  /** As written, a block of type 128 or above never matches its own anchor,
      so the second click erases the session without filling; the intended
      comparison matches every type with itself. */
  lemma AsWrittenMissesHighBlocks(b: byte)
    ensures BlockMatchesAsWritten(b, b) <==> b < 128
    ensures BlockMatches(b, b)
  {
  }

  /** The walk-through of a cuboid: start, stone (1) at (0, 4, 0), stone at
      (2, 4, 0) sets the three blocks in between and ends the session; dirt
      (3) as the second block sets nothing. */
  lemma CuboidWalkThrough(sessions: map<string, Session>, user: string)
    ensures var s0 := Start(sessions, user);
      var s1 := Place(s0, user, 0, 4, 0, 1);
      var s2 := Place(s1.sessions, user, 2, 4, 0, 1);
      s1.effects == [SendMsg(user, FirstDone)] &&
      s2.effects == [SetBlock(0, 4, 0, 1, 0), SetBlock(1, 4, 0, 1, 0), SetBlock(2, 4, 0, 1, 0),
                     SendMsg(user, CuboidDone)] &&
      user !in s2.sessions &&
      Place(s2.sessions, user, 5, 4, 5, 1) == Step(s2.sessions, []) &&
      Place(s1.sessions, user, 2, 4, 0, 3) == Step(s1.sessions - {user}, [])
  {
    assert Fill(0, 2, 0, 0, 4, 1) == [SetBlock(0, 4, 0, 1, 0), SetBlock(1, 4, 0, 1, 0), SetBlock(2, 4, 0, 1, 0)] by {
      assert Row(0, 0, 0, 4, 1) == [SetBlock(0, 4, 0, 1, 0)];
      assert Row(1, 0, 0, 4, 1) == [SetBlock(1, 4, 0, 1, 0)];
      assert Row(2, 0, 0, 4, 1) == [SetBlock(2, 4, 0, 1, 0)];
    }
  }
}
