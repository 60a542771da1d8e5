/** The plugin's mutable core: the command registry `m_Commands` and the
    cuboid sessions `cuboidMap` (global maps in the source) as fields of one
    object, with the two event hooks and the handlers as its methods. Every
    call into the host is appended to `effects`. */
module Plugin {
  import opened Host
  import Tokenizer
  import CString
  import Handlers
  import CuboidTool
  import Commands

  class CommandPlugin {
    /** `m_Commands`: alias to command descriptor. */
    var commands: map<string, Commands.Command>
    /** `cuboidMap`: user to cuboid session. */
    var sessions: map<string, CuboidTool.Session>
    /** The host calls made so far, oldest first. */
    var effects: seq<Effect>

    ghost predicate Valid()
      reads this
    {
      Commands.RegistryWellFormed(commands) && CuboidTool.SessionsWellFormed(sessions)
    }

    constructor ()
      ensures Valid()
      ensures commands == map[] && sessions == map[] && effects == []
    {
      commands := map[];
      sessions := map[];
      effects := [];
    }

    /** `registerCommand`: points every alias of `command` at it. */
    method RegisterCommand(command: Commands.Command)
      requires Valid()
      modifies this
      ensures Valid()
      ensures commands == Commands.WithAliases(old(commands), command.names, command)
      ensures forall n :: n in command.names ==> n in commands && commands[n] == command
      ensures forall k :: k !in command.names ==>
        (k in commands <==> k in old(commands)) && (k in commands ==> commands[k] == old(commands)[k])
      ensures sessions == old(sessions) && effects == old(effects)
    {
      var words := command.names;
      while words != []
        invariant Commands.WithAliases(commands, words, command) ==
                  Commands.WithAliases(old(commands), command.names, command)
        invariant sessions == old(sessions) && effects == old(effects)
        decreases |words|
      {
        var currentWord := words[0];
        words := words[1..];
        commands := commands[currentWord := command];
      }
      Commands.WithAliasesLookup(old(commands), command.names, command);
      Commands.RegisterKeepsWellFormed(old(commands), command);
    }

    /** `command_init`'s registrations (lines 391-394): each alias string is
        tokenized by `parseCmd` and the descriptor registered under the result. */
    method RegisterBuiltins()
      requires Valid()
      modifies this
      ensures Valid()
      ensures commands == Commands.Registered(old(commands), Commands.Builtins)
      ensures sessions == old(sessions) && effects == old(effects)
    {
      Commands.BuiltinNames();
      var b := Commands.Builtins;
      Commands.RegisteredFour(commands, b);
      var names := Tokenizer.ParseCmd(Tokenizer.Join(b[0].names));
      RegisterCommand(Commands.Command(names, b[0].arguments, b[0].description, Commands.Give));
      ghost var r1 := commands;
      names := Tokenizer.ParseCmd(Tokenizer.Join(b[1].names));
      RegisterCommand(Commands.Command(names, b[1].arguments, b[1].description, Commands.Home));
      ghost var r2 := commands;
      names := Tokenizer.ParseCmd(Tokenizer.Join(b[2].names));
      RegisterCommand(Commands.Command(names, b[2].arguments, b[2].description, Commands.SetTime));
      ghost var r3 := commands;
      names := Tokenizer.ParseCmd(Tokenizer.Join(b[3].names));
      RegisterCommand(Commands.Command(names, b[3].arguments, b[3].description, Commands.Cuboid));
      assert r1 == Commands.WithAliases(old(commands), b[0].names, b[0]);
      assert r2 == Commands.WithAliases(r1, b[1].names, b[1]);
      assert r3 == Commands.WithAliases(r2, b[2].names, b[2]);
      assert commands == Commands.WithAliases(r3, b[3].names, b[3]);
    }

    /** `chatPreFunction`: the result says whether the host should still
        deliver the line as ordinary chat. */
    method ChatPre(user: string, msg: string, host: HostView) returns (deliver: bool)
      requires Valid()
      modifies this
      ensures Valid()
      ensures deliver == Commands.ChatDecision(old(commands), msg).Deliver?
      ensures commands == old(commands)
      ensures var step := Commands.ChatStep(old(commands), old(sessions), user, msg, host);
        sessions == step.sessions && effects == old(effects) + step.effects
    {
      ghost var decision := Commands.ChatDecision(commands, msg);
      if |msg| == 0 {
        return false;
      }
      var prefix := msg[0];
      effects := effects + [Log(Commands.LogLine(user, msg))];
      if prefix == Commands.Prefix {
        var cmd := Tokenizer.ParseCmd(msg[1..]);
        var command := cmd[0];
        cmd := cmd[1..];
        if command in commands {
          var handler := commands[command].handler;
          assert decision == Commands.Invoke(handler, command, cmd);
          Commands.ChatStepInvoke(commands, sessions, user, msg, host, handler, command, cmd);
          RunHandler(handler, user, cmd, host);
          return false;
        }
        assert decision == Commands.Deliver;
      }
      assert decision == Commands.Deliver;
      return true;
    }

    /** The call through the descriptor's function pointer. The command name
        it also passes is unused by all four handlers. */
    method RunHandler(handler: Commands.Handler, user: string, args: seq<string>, host: HostView)
      requires Valid()
      modifies this
      ensures Valid()
      ensures commands == old(commands)
      ensures var step := Commands.HandlerStep(handler, user, args, host, old(sessions));
        sessions == step.sessions && effects == old(effects) + step.effects
    {
      match handler
      case Give => GiveItemsSelf(user, args, host);
      case Home => Home(user, host);
      case SetTime => SetTime(user, args);
      case Cuboid => StartCuboid(user);
    }

    /** `giveItemsSelf`: spawns the item at the user's position, one pickup per stack. */
    method GiveItemsSelf(user: string, args: seq<string>, host: HostView)
      modifies this`effects
      ensures effects == old(effects) + Handlers.GiveEffects(user, args, host)
    {
      if |args| == 1 || |args| == 2 {
        var itemId := CString.Atoi(args[0]);
        if Handlers.IsValidItem(itemId) {
          if user in host.positions {
            var p := host.positions[user];
            var itemCount, itemStacks := 1, 1;
            ghost var count: Option<int> := None;
            if |args| == 2 {
              itemCount := CString.Atoi(args[1]);
              count := Some(itemCount);
              if itemCount > Handlers.MaxItems {
                itemCount := Handlers.MaxItems;
              }
              itemStacks := Handlers.CDiv(Handlers.RoundUpTo(itemCount, Handlers.StackSize), Handlers.StackSize);
              itemCount := itemCount - (itemStacks - 1) * Handlers.StackSize;
            }
            assert itemStacks == Handlers.StackCount(count) && itemCount == Handlers.LastStack(count);
            SpawnStacks(p, itemId, user, itemStacks, itemCount);
          }
        } else {
          effects := effects + [SendMsg(user, Handlers.NotValidItem)];
        }
      } else {
        effects := effects + [SendMsg(user, Handlers.GiveUsage)];
      }
    }

    /** The `for` loop of lines 232-242: `itemStacks` pickups, all of 64
        but the last, which gets `itemCount`. */
    method SpawnStacks(p: Pos, itemId: int, user: string, itemStacks: int, itemCount: int)
      modifies this`effects
      ensures effects == old(effects) + Handlers.Spawns(p, itemId, user, Handlers.Stacks(itemStacks, itemCount))
    {
      ghost var amounts := Handlers.Stacks(itemStacks, itemCount);
      var amount := Handlers.StackSize;
      var i := 0;
      while i < itemStacks
        invariant 0 <= i <= |amounts|
        invariant i < itemStacks ==> amount == Handlers.StackSize
        invariant effects == old(effects) + Handlers.Spawns(p, itemId, user, amounts[..i])
      {
        if i == itemStacks - 1 {
          amount := itemCount;
        }
        Handlers.SpawnsExtend(p, itemId, user, amounts, i);
        effects := effects + [Spawn(p.x, p.y, p.z, itemId, amount, 0, user)];
        i := i + 1;
      }
      assert amounts[..i] == amounts;
    }

    /** `home`. */
    method Home(user: string, host: HostView)
      modifies this`effects
      ensures effects == old(effects) + Handlers.HomeEffects(user, host)
    {
      effects := effects + [SendMsg(user, Handlers.HomeDone)];
      var spawn := host.spawn;
      effects := effects + [Teleport(user, spawn.x, spawn.y + 2, spawn.z)];
    }

    /** `setTime`. */
    method SetTime(user: string, args: seq<string>)
      modifies this`effects
      ensures effects == old(effects) + Handlers.SetTimeEffects(user, args)
    {
      if |args| == 1 {
        var timeValue := Handlers.TimeValue(args[0]);
        effects := effects + [SetWorldTime(CString.Atoi(timeValue))];
        effects := effects + [SendMsg(user, Handlers.TimeChanged)];
      } else {
        effects := effects + [SendMsg(user, Handlers.TimeUsage)];
      }
    }

    /** `cuboid`: drops any session of `user` and opens a fresh one. */
    method StartCuboid(user: string)
      requires Valid()
      modifies this`sessions, this`effects
      ensures Valid()
      ensures sessions == CuboidTool.Start(old(sessions), user)
      ensures effects == old(effects) + [SendMsg(user, CuboidTool.StartMsg)]
    {
      if user in sessions {
        sessions := sessions - {user};
      }
      sessions := sessions[user := CuboidTool.Fresh];
      effects := effects + [SendMsg(user, CuboidTool.StartMsg)];
    }

    /** `blockPlacePreFunction`: advances `user`'s cuboid session; the
        placement itself always goes ahead. */
    method BlockPlacePre(user: string, x: int, y: sbyte, z: int, block: byte) returns (proceed: bool)
      requires Valid()
      modifies this`sessions, this`effects
      ensures proceed
      ensures Valid()
      ensures var step := CuboidTool.Place(old(sessions), user, x, y, z, block);
        sessions == step.sessions && effects == old(effects) + step.effects
    {
      CuboidTool.PlaceTransitions(sessions, user, x, y, z, block);
      if user in sessions {
        var s := sessions[user];
        if s.active {
          if s.state == 0 {
            sessions := sessions[user := s.(state := 1, x := x, y := y, z := z, block := block)];
            effects := effects + [SendMsg(user, CuboidTool.FirstDone)];
          } else if s.state == 1 {
            if CuboidTool.BlockMatches(s.block, block) {
              if s.y == y {
                var xstart := if x < s.x then x else s.x;
                var xend := if x < s.x then s.x else x;
                var zstart := if z < s.z then z else s.z;
                var zend := if z < s.z then s.z else z;
                FillRectangle(xstart, xend, zstart, zend, y as int, block);
                effects := effects + [SendMsg(user, CuboidTool.CuboidDone)];
              }
            }
            sessions := sessions - {user};
          }
        }
      }
      proceed := true;
    }

    /** The nested `for` loops of lines 350-356. */
    method FillRectangle(xstart: int, xend: int, zstart: int, zend: int, y: int, block: byte)
      requires xstart <= xend && zstart <= zend
      modifies this`effects
      ensures effects == old(effects) + CuboidTool.Fill(xstart, xend, zstart, zend, y, block)
    {
      var xpos := xstart;
      while xpos <= xend
        invariant xstart <= xpos <= xend + 1
        invariant effects == old(effects) + CuboidTool.Fill(xstart, xpos - 1, zstart, zend, y, block)
        decreases xend - xpos
      {
        var zpos := zstart;
        while zpos <= zend
          invariant zstart <= zpos <= zend + 1
          invariant effects == old(effects) + CuboidTool.Fill(xstart, xpos - 1, zstart, zend, y, block)
                               + CuboidTool.Row(xpos, zstart, zpos - 1, y, block)
          decreases zend - zpos
        {
          effects := effects + [SetBlock(xpos, y, zpos, block, 0)];
          zpos := zpos + 1;
        }
        xpos := xpos + 1;
      }
    }
  }
}
