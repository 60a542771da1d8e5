/** What the command handlers compute before they call the host: item
    validation, the splitting of a requested count into stacks, the time
    labels of `settime`, and the host calls each handler makes. */
module Handlers {
  import opened Host
  import opened CString

  const StackSize: int := 64
  const MaxItems: int := 1024

  const GiveUsage: string := "Usage: /igive item [count]"
  const NotValidItem: string := "Not a valid item"
  const HomeDone: string := "Teleported you home!"
  const TimeUsage: string := "Usage: /settime time (time = 0-24000)"
  const TimeChanged: string := "World time changed."

  /** `isValidItem`: the block ids 1-91, the item ids 256-350 and the two records. */
  function IsValidItem(id: int): (valid: bool)
    ensures valid <==> (1 <= id <= 91 || 256 <= id <= 350 || id == 2256 || id == 2257)
  {
    if id < 1 then false
    else if id > 91 && id < 256 then false
    else if id == 2256 || id == 2257 then true
    else if id > 350 then false
    else true
  }

  /** C's `/` on `int`: the quotient truncated toward zero. */
  function CDiv(a: int, b: int): int
    requires b != 0
  {
    var q := (if a < 0 then -a else a) / (if b < 0 then -b else b);
    if (a < 0) == (b < 0) then q else -q
  }

  /** `roundUpTo`. */
  function RoundUpTo(x: int, nearest: int): int
    requires nearest != 0
  {
    CDiv(x + (nearest - 1), nearest) * nearest
  }

  /** For a positive `nearest` and `x` above `-nearest`, `roundUpTo` lands at
      most `nearest - 1` above `x` (for the stack size the source passes,
      `StackSplit` adds that it lands on a multiple); for `x <= 0` it is never
      positive. */
  lemma RoundUpToBounds(x: int, nearest: int)
    requires nearest != 0
    ensures nearest > 0 && x > -nearest ==> x <= RoundUpTo(x, nearest) < x + nearest
    ensures nearest > 0 && x <= 0 ==> RoundUpTo(x, nearest) <= 0
  {
    if nearest > 0 {
      var a := x + (nearest - 1);
      var q := CDiv(a, nearest);
      if a >= 0 {
        assert q == a / nearest;
        DivisionBounds(a, nearest);
      } else {
        assert q == -((-a) / nearest);
        NonPositiveMultiple(-q, nearest);
      }
    }
  }

  lemma DivisionBounds(a: nat, d: int)
    requires d > 0
    ensures a - d < (a / d) * d <= a
  {
  }

  lemma NonPositiveMultiple(k: nat, d: int)
    requires d > 0
    ensures (-(k as int)) * d <= 0
  {
  }

  /** The amounts of the stacks `giveItemsSelf` spawns, in order: `None`
      when no count is given. */
  function StackAmounts(count: Option<int>): seq<int> {
    Stacks(StackCount(count), LastStack(count))
  }

  /** `stacks` stacks, all full but the last, which holds `last`. */
  function Stacks(stacks: int, last: int): seq<int> {
    if stacks <= 0 then []
    else seq(stacks, i => if i == stacks - 1 then last else StackSize)
  }

  /** `itemStacks`: one without a count, else the clamped count rounded up to whole stacks. */
  function StackCount(count: Option<int>): int {
    match count
    case None => 1
    case Some(n) => CDiv(RoundUpTo(Clamp(n), StackSize), StackSize)
  }

  /** `itemCount` after the split: the amount of the last stack. */
  function LastStack(count: Option<int>): int {
    match count
    case None => 1
    case Some(n) => Clamp(n) - (StackCount(count) - 1) * StackSize
  }

  /** The count after the cap at `MaxItems`. */
  function Clamp(n: int): int {
    if n > MaxItems then MaxItems else n
  }

  function Sum(s: seq<int>): int {
    if s == [] then 0 else Sum(s[..|s| - 1]) + s[|s| - 1]
  }

  lemma {:induction false} SumFullStacks(k: nat, last: int)
    ensures Sum(seq(k + 1, i => if i == k then last else StackSize)) == StackSize * k + last
  {
    var s := seq(k + 1, i => if i == k then last else StackSize);
    if k > 0 {
      SumFullStacks(k - 1, StackSize);
      assert s[..k] == seq(k, i => if i == k - 1 then StackSize else StackSize);
    } else {
      assert s[..0] == [];
    }
  }

  /** A requested count `n` is clamped to 1024 and split into stacks of 64,
      the remainder going to the last stack; nothing is spawned for `n <= 0`. */
  lemma StackSplit(n: int)
    ensures n <= 0 ==> StackAmounts(Some(n)) == []
    ensures n >= 1 ==>
      var m := if n > MaxItems then MaxItems else n;
      var r := StackAmounts(Some(n));
      |r| == (m + StackSize - 1) / StackSize &&
      StackSize * (|r| - 1) < m <= StackSize * |r| &&
      (forall i :: 0 <= i < |r| - 1 ==> r[i] == StackSize) &&
      1 <= r[|r| - 1] <= StackSize &&
      Sum(r) == m
  {
    var c := Clamp(n);
    RoundUpToBounds(c, StackSize);
    var up := RoundUpTo(c, StackSize);
    var stacks := StackCount(Some(n));
    assert stacks == CDiv(up, StackSize);
    if n >= 1 {
      assert up == StackSize * stacks;
      var last := LastStack(Some(n));
      SumFullStacks(stacks - 1, last);
    }
  }

  /** A single item id gives one stack of one. */
  lemma SingleItem()
    ensures StackAmounts(None) == [1]
  {
    assert StackCount(None) == 1 && LastStack(None) == 1;
    assert StackAmounts(None)[0] == 1;
  }

  /** The pickup spawns at `p` for the given stack amounts, in order. */
  function Spawns(p: Pos, itemId: int, user: string, amounts: seq<int>): seq<Effect> {
    if amounts == [] then []
    else Spawns(p, itemId, user, amounts[..|amounts| - 1]) + [Spawn(p.x, p.y, p.z, itemId, amounts[|amounts| - 1], 0, user)]
  }

  /** One pickup per amount, in order, all of the item at `p`. */
  lemma {:induction false} SpawnsAt(p: Pos, itemId: int, user: string, amounts: seq<int>)
    ensures |Spawns(p, itemId, user, amounts)| == |amounts|
    ensures forall i :: 0 <= i < |amounts| ==>
      Spawns(p, itemId, user, amounts)[i] == Spawn(p.x, p.y, p.z, itemId, amounts[i], 0, user)
    decreases |amounts|
  {
    if amounts != [] {
      SpawnsAt(p, itemId, user, amounts[..|amounts| - 1]);
    }
  }

  /** One more stack spawns one more pickup, at the end. */
  lemma SpawnsExtend(p: Pos, itemId: int, user: string, amounts: seq<int>, i: int)
    requires 0 <= i < |amounts|
    ensures Spawns(p, itemId, user, amounts[..i + 1]) ==
      Spawns(p, itemId, user, amounts[..i]) + [Spawn(p.x, p.y, p.z, itemId, amounts[i], 0, user)]
  {
    assert amounts[..i + 1][..i] == amounts[..i];
  }

  /** The host calls of `giveItemsSelf`. */
  function GiveEffects(user: string, args: seq<string>, host: HostView): seq<Effect> {
    if |args| == 1 || |args| == 2 then
      var itemId := Atoi(args[0]);
      if IsValidItem(itemId) then
        if user in host.positions then
          Spawns(host.positions[user], itemId, user,
                 StackAmounts(if |args| == 2 then Some(Atoi(args[1])) else None))
        else []
      else [SendMsg(user, NotValidItem)]
    else [SendMsg(user, GiveUsage)]
  }

  /** A wrong number of arguments or an invalid item id only sends a
      message; a user whose position is unknown gets nothing. */
  lemma GiveRejects(user: string, args: seq<string>, host: HostView)
    ensures !(|args| == 1 || |args| == 2) ==> GiveEffects(user, args, host) == [SendMsg(user, GiveUsage)]
    ensures (|args| == 1 || |args| == 2) && !IsValidItem(Atoi(args[0])) ==>
      GiveEffects(user, args, host) == [SendMsg(user, NotValidItem)]
    ensures (|args| == 1 || |args| == 2) && IsValidItem(Atoi(args[0])) && user !in host.positions ==>
      GiveEffects(user, args, host) == []
  {
  }

  /** A valid give spawns only pickups of that item at the user's position,
      one per stack, and their amounts add up to the clamped count. */
  lemma GiveSpawnsStacks(user: string, args: seq<string>, host: HostView)
    requires |args| == 1 || |args| == 2
    requires IsValidItem(Atoi(args[0])) && user in host.positions
    ensures var e := GiveEffects(user, args, host);
      var p := host.positions[user];
      var amounts := StackAmounts(if |args| == 2 then Some(Atoi(args[1])) else None);
      |e| == |amounts| &&
      forall i :: 0 <= i < |e| ==> e[i] == Spawn(p.x, p.y, p.z, Atoi(args[0]), amounts[i], 0, user)
    ensures |args| == 1 ==>
      var p := host.positions[user];
      GiveEffects(user, args, host) == [Spawn(p.x, p.y, p.z, Atoi(args[0]), 1, 0, user)]
  {
    SingleItem();
    SpawnsAt(host.positions[user], Atoi(args[0]), user,
             StackAmounts(if |args| == 2 then Some(Atoi(args[1])) else None));
  }

  /** The host calls of `home`: the message, then a teleport two blocks above the spawn point. */
  function HomeEffects(user: string, host: HostView): seq<Effect> {
    [SendMsg(user, HomeDone), Teleport(user, host.spawn.x, host.spawn.y + 2, host.spawn.z)]
  }

  /** The label substitution of `setTime`: a label becomes its numeral, any
      other argument is kept as it is. */
  function TimeValue(arg: string): string {
    if arg == "day" || arg == "morning" then "24000"
    else if arg == "dawn" then "22500"
    else if arg == "noon" then "6000"
    else if arg == "dusk" then "12000"
    else if arg == "night" || arg == "midnight" then "18000"
    else arg
  }

  /** The world time each argument of `settime` stands for. */
  function LabelTicks(arg: string): int {
    match arg
    case "day" => 24000
    case "morning" => 24000
    case "dawn" => 22500
    case "noon" => 6000
    case "dusk" => 12000
    case "night" => 18000
    case "midnight" => 18000
    case _ => Atoi(arg)
  }

  /** The host calls of `setTime`. */
  function SetTimeEffects(user: string, args: seq<string>): seq<Effect> {
    if |args| == 1 then [SetWorldTime(Atoi(TimeValue(args[0]))), SendMsg(user, TimeChanged)]
    else [SendMsg(user, TimeUsage)]
  }

  // `atoi` of the numerals the labels stand for, one numeral per lemma.
  lemma Atoi24000() ensures Atoi("24000") == 24000 {
    assert Decimal(24000) == "24000";
    AtoiDecimal(24000);
  }

  lemma Atoi22500() ensures Atoi("22500") == 22500 {
    assert Decimal(22500) == "22500";
    AtoiDecimal(22500);
  }

  lemma Atoi6000() ensures Atoi("6000") == 6000 {
    assert Decimal(6000) == "6000";
    AtoiDecimal(6000);
  }

  lemma Atoi12000() ensures Atoi("12000") == 12000 {
    assert Decimal(12000) == "12000";
    AtoiDecimal(12000);
  }

  lemma Atoi18000() ensures Atoi("18000") == 18000 {
    assert Decimal(18000) == "18000";
    AtoiDecimal(18000);
  }

  /** `settime` sets the time the label table gives (any other argument
      through `atoi`) and confirms; with a wrong argument count it only sends
      the usage message. */
  lemma SetTimeTable(user: string, args: seq<string>)
    ensures |args| == 1 ==>
      SetTimeEffects(user, args) == [SetWorldTime(LabelTicks(args[0])), SendMsg(user, TimeChanged)]
    ensures |args| != 1 ==> SetTimeEffects(user, args) == [SendMsg(user, TimeUsage)]
  {
    if |args| == 1 {
      LabelValue(args[0]);
    }
  }

  /** The numeral a label is replaced by reads back as the label's time. */
  lemma LabelValue(arg: string)
    ensures Atoi(TimeValue(arg)) == LabelTicks(arg)
  {
    if arg == "day" || arg == "morning" {
      DayValue(arg);
    } else if arg == "dawn" {
      DawnValue(arg);
    } else if arg == "noon" {
      NoonValue(arg);
    } else if arg == "dusk" {
      DuskValue(arg);
    } else if arg == "night" || arg == "midnight" {
      NightValue(arg);
    }
  }

  lemma DayValue(arg: string)
    requires arg == "day" || arg == "morning"
    ensures Atoi(TimeValue(arg)) == LabelTicks(arg)
  {
    Atoi24000();
  }

  lemma DawnValue(arg: string)
    requires arg == "dawn"
    ensures Atoi(TimeValue(arg)) == LabelTicks(arg)
  {
    Atoi22500();
  }

  lemma NoonValue(arg: string)
    requires arg == "noon"
    ensures Atoi(TimeValue(arg)) == LabelTicks(arg)
  {
    Atoi6000();
  }

  lemma DuskValue(arg: string)
    requires arg == "dusk"
    ensures Atoi(TimeValue(arg)) == LabelTicks(arg)
  {
    Atoi12000();
  }

  lemma NightValue(arg: string)
    requires arg == "night" || arg == "midnight"
    ensures Atoi(TimeValue(arg)) == LabelTicks(arg)
  {
    assert TimeValue(arg) == "18000" && LabelTicks(arg) == 18000;
    Atoi18000();
  }
}
