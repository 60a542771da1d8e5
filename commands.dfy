/** The command registry and the chat dispatcher: aliases map to a shared
    command descriptor, and a chat line that starts with the prefix and names
    a registered command runs that command's handler instead of being shown. */
module Commands {
  import opened Host
  import Tokenizer
  import Handlers
  import CuboidTool

  /** `CHATCMDPREFIX`. */
  const Prefix: char := '/'

  /** The four handlers the plugin registers (function pointers in the source). */
  datatype Handler = Give | Home | SetTime | Cuboid

  /** `struct Command`: its aliases, argument hint, help text and handler. */
  datatype Command = Command(names: seq<string>, arguments: string, description: string, handler: Handler)

  /** The registry after each of `names`, in order, has been pointed at `command`. */
  function WithAliases(registry: map<string, Command>, names: seq<string>, command: Command): map<string, Command>
    decreases |names|
  {
    if names == [] then registry
    else WithAliases(registry[names[0] := command], names[1..], command)
  }

  /** Registering adds exactly the aliases, all mapped to the one descriptor
      (so the last registration of an alias wins), and keeps every other key. */
  lemma {:induction false} WithAliasesLookup(registry: map<string, Command>, names: seq<string>, command: Command)
    ensures forall k :: k in WithAliases(registry, names, command) <==> k in registry || k in names
    ensures forall k :: k in names ==> WithAliases(registry, names, command)[k] == command
    ensures forall k :: k in registry && k !in names ==> WithAliases(registry, names, command)[k] == registry[k]
    decreases |names|
  {
    if names != [] {
      var next := registry[names[0] := command];
      WithAliasesLookup(next, names[1..], command);
      assert forall k :: k in names <==> k == names[0] || k in names[1..];
    }
  }

  /** Every key of the registry is one of the aliases of the command it maps to. */
  ghost predicate RegistryWellFormed(registry: map<string, Command>) {
    forall k :: k in registry ==> k in registry[k].names
  }

  lemma RegisterKeepsWellFormed(registry: map<string, Command>, command: Command)
    requires RegistryWellFormed(registry)
    ensures RegistryWellFormed(WithAliases(registry, command.names, command))
  {
    WithAliasesLookup(registry, command.names, command);
  }

  /** The aliases `command_init` registers for the give command both lead to it. */
  lemma GiveRegisteredUnderBothAliases(registry: map<string, Command>, give: Command)
    ensures var r := WithAliases(registry, Tokenizer.Tokens("igive i"), give);
      "igive" in r && "i" in r && r["igive"] == give && r["i"] == give
  {
    Tokenizer.GiveAliases();
    WithAliasesLookup(registry, ["igive", "i"], give);
  }

  /** The four descriptors `command_init` builds (lines 391-394). Their alias
      lists are what `parseCmd` makes of "igive i", "home", "settime" and
      "cuboid", as `BuiltinNames` proves. */
  const GiveDescriptor: Command := Command(["igive", "i"], "<id/alias> [count]",
    "Gives self [count] pieces of <id/alias>. By default [count] = 1", Give)
  const HomeDescriptor: Command := Command(["home"], "",
    "Teleport to map spawn location", Home)
  const SetTimeDescriptor: Command := Command(["settime"], "<time>",
    "Sets server time. (<time> = 0-24000, 0 & 24000 = day, ~15000 = night)", SetTime)
  const CuboidDescriptor: Command := Command(["cuboid"], "", "Cuboid testing", Cuboid)

  /** `command_init`'s registrations, in the order lines 391-394 make them. */
  const Builtins: seq<Command> := [GiveDescriptor, HomeDescriptor, SetTimeDescriptor, CuboidDescriptor]

  /** The registry after each of `commands`, in order, has been registered. */
  function Registered(registry: map<string, Command>, commands: seq<Command>): map<string, Command>
    decreases |commands|
  {
    if commands == [] then registry
    else Registered(WithAliases(registry, commands[0].names, commands[0]), commands[1..])
  }

  /** Four registrations in a row, written out. */
  lemma RegisteredFour(registry: map<string, Command>, commands: seq<Command>)
    requires |commands| == 4
    ensures Registered(registry, commands) ==
      WithAliases(WithAliases(WithAliases(WithAliases(registry, commands[0].names, commands[0]),
        commands[1].names, commands[1]), commands[2].names, commands[2]), commands[3].names, commands[3])
  {
    var r1 := WithAliases(registry, commands[0].names, commands[0]);
    var r2 := WithAliases(r1, commands[1].names, commands[1]);
    var r3 := WithAliases(r2, commands[2].names, commands[2]);
    var r4 := WithAliases(r3, commands[3].names, commands[3]);
    assert Registered(r3, commands[3..]) == r4 by { assert commands[3..][1..] == []; }
    assert Registered(r2, commands[2..]) == r4 by { assert commands[2..][1..] == commands[3..]; }
    assert Registered(r1, commands[1..]) == r4 by { assert commands[1..][1..] == commands[2..]; }
  }

  /** Each descriptor's alias list is what `parseCmd` makes of the alias
      string lines 391-394 pass for it. */
  lemma BuiltinNames()
    ensures Tokenizer.Join(Builtins[0].names) == "igive i" && Tokenizer.Join(Builtins[1].names) == "home"
    ensures Tokenizer.Join(Builtins[2].names) == "settime" && Tokenizer.Join(Builtins[3].names) == "cuboid"
    ensures forall k :: 0 <= k < |Builtins| ==>
      Tokenizer.Tokens(Tokenizer.Join(Builtins[k].names)) == Builtins[k].names
  {
    forall k | 0 <= k < |Builtins|
      ensures Tokenizer.Tokens(Tokenizer.Join(Builtins[k].names)) == Builtins[k].names
    {
      Tokenizer.SplitJoin(Builtins[k].names);
    }
  }

  /** Registering four descriptors with these alias lists into an empty
      registry binds exactly their five names, each to its own descriptor. */
  lemma FourRegistrations(commands: seq<Command>)
    requires |commands| == 4
    requires commands[0].names == ["igive", "i"] && commands[1].names == ["home"]
    requires commands[2].names == ["settime"] && commands[3].names == ["cuboid"]
    ensures var r := Registered(map[], commands);
      r == map["igive" := commands[0], "i" := commands[0], "home" := commands[1],
               "settime" := commands[2], "cuboid" := commands[3]]
  {
    RegisteredFour(map[], commands);
    var r1 := map["igive" := commands[0], "i" := commands[0]];
    assert WithAliases(map[], commands[0].names, commands[0]) == r1 by {
      assert commands[0].names[1..] == ["i"] && ["i"][1..] == [];
    }
    assert WithAliases(r1, commands[1].names, commands[1]) == r1["home" := commands[1]];
  }

  /** Starting from the empty registry, `command_init` registers exactly the
      five names `igive`, `i`, `home`, `settime` and `cuboid`, each bound to the
      descriptor with its handler, and the result is well formed. */
  lemma InitialBindings()
    ensures var r := Registered(map[], Builtins);
      r.Keys == {"igive", "i", "home", "settime", "cuboid"} &&
      r["igive"] == GiveDescriptor && r["i"] == GiveDescriptor && r["home"] == HomeDescriptor &&
      r["settime"] == SetTimeDescriptor && r["cuboid"] == CuboidDescriptor &&
      r["igive"].handler == Give && r["home"].handler == Home &&
      r["settime"].handler == SetTime && r["cuboid"].handler == Cuboid &&
      RegistryWellFormed(r)
  {
    FourRegistrations(Builtins);
  }

  /** What `chatPreFunction` decides for a line: swallow it, deliver it as
      chat, or run a handler with the command name and the remaining tokens. */
  datatype Dispatch = Swallow | Deliver | Invoke(handler: Handler, name: string, args: seq<string>)

  function ChatDecision(registry: map<string, Command>, msg: string): Dispatch {
    if |msg| == 0 then Swallow
    else if msg[0] == Prefix then
      var cmd := Tokenizer.Tokens(msg[1..]);
      if cmd[0] in registry then Invoke(registry[cmd[0]].handler, cmd[0], cmd[1..])
      else Deliver
    else Deliver
  }

  /** The four outcomes of a chat line. In a registry built by registering
      commands, the name typed is always one of the invoked command's aliases. */
  lemma ChatDecisionCases(registry: map<string, Command>, msg: string)
    ensures ChatDecision(registry, msg) == Swallow <==> msg == []
    ensures msg != [] && msg[0] != Prefix ==> ChatDecision(registry, msg) == Deliver
    ensures msg != [] && msg[0] == Prefix && Tokenizer.Tokens(msg[1..])[0] !in registry ==>
      ChatDecision(registry, msg) == Deliver
    ensures ChatDecision(registry, msg).Invoke? <==>
      msg != [] && msg[0] == Prefix && Tokenizer.Tokens(msg[1..])[0] in registry
    ensures ChatDecision(registry, msg).Invoke? ==>
      var d := ChatDecision(registry, msg);
      d.name in registry && d.handler == registry[d.name].handler &&
      Tokenizer.Tokens(msg[1..]) == [d.name] + d.args
    ensures RegistryWellFormed(registry) && ChatDecision(registry, msg).Invoke? ==>
      var d := ChatDecision(registry, msg);
      d.name in registry[d.name].names
  {
  }

  /** A command line `/name arg ...` with single spaces runs the command
      registered under `name` with exactly those arguments. */
  lemma CommandLineInvokes(registry: map<string, Command>, name: string, args: seq<string>)
    requires Tokenizer.IsWord(name) && name in registry
    requires forall k :: 0 <= k < |args| ==> Tokenizer.IsWord(args[k])
    ensures ChatDecision(registry, [Prefix] + Tokenizer.Join([name] + args)) ==
      Invoke(registry[name].handler, name, args)
  {
    var words := [name] + args;
    var line := Tokenizer.Join(words);
    assert forall k :: 0 <= k < |words| ==> Tokenizer.IsWord(words[k]) by {
      forall k | 0 <= k < |words|
        ensures Tokenizer.IsWord(words[k])
      {
        if k > 0 {
          assert words[k] == args[k - 1];
        }
      }
    }
    Tokenizer.SplitJoin(words);
    var msg := [Prefix] + line;
    assert msg[1..] == line;
    assert Tokenizer.Tokens(msg[1..]) == words;
    assert words[0] == name && words[1..] == args;
  }

  /** The line written to the server log for every non-empty chat line. */
  function LogLine(user: string, msg: string): string {
    "Command Plugin got from " + user + ": " + msg
  }

  /** What a handler does to the sessions and the host. */
  function HandlerStep(handler: Handler, user: string, args: seq<string>, host: HostView,
                       sessions: map<string, CuboidTool.Session>): CuboidTool.Step
  {
    match handler
    case Give => CuboidTool.Step(sessions, Handlers.GiveEffects(user, args, host))
    case Home => CuboidTool.Step(sessions, Handlers.HomeEffects(user, host))
    case SetTime => CuboidTool.Step(sessions, Handlers.SetTimeEffects(user, args))
    case Cuboid => CuboidTool.Step(CuboidTool.Start(sessions, user), [SendMsg(user, CuboidTool.StartMsg)])
  }

  /** What `chatPreFunction` does to the sessions and the host. */
  function ChatStep(registry: map<string, Command>, sessions: map<string, CuboidTool.Session>,
                    user: string, msg: string, host: HostView): CuboidTool.Step
  {
    match ChatDecision(registry, msg)
    case Swallow => CuboidTool.Step(sessions, [])
    case Deliver => CuboidTool.Step(sessions, [Log(LogLine(user, msg))])
    case Invoke(h, _, args) =>
      var s := HandlerStep(h, user, args, host, sessions);
      CuboidTool.Step(s.sessions, [Log(LogLine(user, msg))] + s.effects)
  }

  /** A line that invokes a handler is logged, then the handler's step follows. */
  lemma ChatStepInvoke(registry: map<string, Command>, sessions: map<string, CuboidTool.Session>,
                       user: string, msg: string, host: HostView, handler: Handler, name: string, args: seq<string>)
    requires ChatDecision(registry, msg) == Invoke(handler, name, args)
    ensures var s := HandlerStep(handler, user, args, host, sessions);
      ChatStep(registry, sessions, user, msg, host) == CuboidTool.Step(s.sessions, [Log(LogLine(user, msg))] + s.effects)
  {
  }

  /** An empty line does nothing; a line that is not a registered command is
      only logged; a command is logged, then its handler runs once with the
      remaining tokens, and only the cuboid handler touches the sessions. */
  lemma ChatStepEffects(registry: map<string, Command>, sessions: map<string, CuboidTool.Session>,
                        user: string, msg: string, host: HostView)
    ensures msg == [] ==> ChatStep(registry, sessions, user, msg, host) == CuboidTool.Step(sessions, [])
    ensures ChatDecision(registry, msg) == Deliver ==>
      ChatStep(registry, sessions, user, msg, host) == CuboidTool.Step(sessions, [Log(LogLine(user, msg))])
    ensures ChatDecision(registry, msg).Invoke? ==>
      var d := ChatDecision(registry, msg);
      var s := HandlerStep(d.handler, user, d.args, host, sessions);
      ChatStep(registry, sessions, user, msg, host).effects == [Log(LogLine(user, msg))] + s.effects &&
      ChatStep(registry, sessions, user, msg, host).sessions ==
        (if d.handler == Cuboid then CuboidTool.Start(sessions, user) else sessions)
  {
  }

  /** A line naming a command registered with the home handler, such as
      `/home`, logs the line, sends the confirmation and teleports the user
      two blocks above the spawn point; sessions are untouched. */
  lemma HomeCommand(registry: map<string, Command>, sessions: map<string, CuboidTool.Session>,
                    user: string, name: string, host: HostView)
    requires Tokenizer.IsWord(name) && name in registry && registry[name].handler == Home
    ensures ChatStep(registry, sessions, user, [Prefix] + name, host) ==
      CuboidTool.Step(sessions, [Log(LogLine(user, [Prefix] + name)), SendMsg(user, Handlers.HomeDone),
                                 Teleport(user, host.spawn.x, host.spawn.y + 2, host.spawn.z)])
  {
    var msg := [Prefix] + name;
    assert msg[1..] == name;
    Tokenizer.SplitWord(name);
    assert Tokenizer.Tokens(name) == [name];
    assert ChatDecision(registry, msg) == Invoke(Home, name, []);
    assert HandlerStep(Home, user, [], host, sessions) == CuboidTool.Step(sessions, Handlers.HomeEffects(user, host));
  }
}
