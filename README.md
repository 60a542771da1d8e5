# mineserver command plugin, modelled in Dafny

This project models the command plugin of the mineserver Minecraft server,
`plugintest/src/command.cpp`. The plugin hooks two server events.

When a chat line arrives (`chatPreFunction`):
- an empty line is swallowed at once, without being logged;
- any other line is logged;
- a line starting with `/` is split into tokens by the plugin's own tokenizer
  (`parseCmd`) after the `/`. If the first token is a registered alias, that
  command's handler runs with the remaining tokens and the line is swallowed;
- every other line, with or without `/`, is delivered as chat.

When a block is placed (`blockPlacePreFunction`), it advances the placing
user's two-click cuboid session:
- the first block is stored as an anchor;
- when a second block of the same type at the same height is placed, every
  block of the X-Z rectangle between the two is set.

The four handlers are:
- `igive`/`i`: spawn item pickups, split into stacks of 64;
- `home`: teleport to the spawn point;
- `settime`: set the world time, with named times of day;
- `cuboid`: start a cuboid session.

Structure of the model:

- `Host`: the plugin's view of the server.
  - Every call into the server (`screen.log`, `chat.sendmsgTo`, `map.setBlock`,
    `map.createPickupSpawn`, `map.setTime`, `user.teleport`) is an `Effect`
    appended to a trace.
  - What the server reports back (user positions, the spawn point) is a
    `HostView` value passed in.
- `Tokenizer`: `parseCmd`, as a method with its loops, proved against the
  functions `Split`/`Tokens`, plus lemmas about the tokens it produces.
- `CString`: the C library's `atoi` as a specification function.
- `Handlers`: `isValidItem`, `roundUpTo`, the stack split of `giveItemsSelf`,
  the label table of `setTime`, and the host calls each handler makes.
- `CuboidTool`: the per-user session record and the specification of the two
  cuboid events, with their lemmas.
- `Commands`: the registry as a map from alias to command descriptor, what
  registering does to it, the four commands `command_init` registers, and
  what a chat line does.
- `Plugin`: the class `CommandPlugin`. Its fields are the two global maps
  `m_Commands` and `cuboidMap` and the effect trace. Its methods are the
  hooks and handlers, proved against the functions of the other modules.

Two behaviours of the code are easy to miss, and the model follows them:
- an empty chat line is swallowed (`false`), not passed on as chat;
- a line of spaces only gives the single empty token `""`, not the sentinel
  `"empty"`.

`char` is signed on the usual x86 builds and unsigned on some other
platforms. The cuboid specification uses the comparison of block types the
code evidently intends (see "## Findings"), which coincides with the code
wherever `char` is unsigned.

## Model

| member | source | states |
|---|---|---|
| Tokenizer.ParseCmd | plugintest/src/command.cpp:70-101 | The tokens are those of `Tokens`: leading spaces are skipped, the line is cut at each space. The result is never empty, and the empty line gives exactly `["empty"]`. |
| Tokenizer.NoSpaceInTokens | plugintest/src/command.cpp:75-94 | No token contains a space. |
| Tokenizer.BlankLine | plugintest/src/command.cpp:75-94 | A non-empty line of spaces only gives `[""]`: the strip loop empties it and `find` returns npos. |
| Tokenizer.TrailingSpacesGiveEmptyToken | plugintest/src/command.cpp:75-94 | A line ending in two or more spaces tokenizes with an empty last token. |
| Tokenizer.SplitJoin | plugintest/src/command.cpp:75-94 | Joining non-empty space-free words with single spaces and tokenizing gives back the words. |
| Tokenizer.JoinSplit | plugintest/src/command.cpp:75-94 | A single-spaced line (no leading, trailing or doubled space) tokenizes into words, and joining the words with spaces gives back the line. |
| Tokenizer.GiveAliases | plugintest/src/command.cpp:391 | `"igive i"` tokenizes to `["igive", "i"]`. |
| Tokenizer.Find | plugintest/src/command.cpp:82-84 | The index of the first occurrence of the character, or -1 exactly when the character is absent. |
| CString.AtoiDecimal | plugintest/src/command.cpp:213 | `atoi` reads a decimal numeral back as the number it denotes. |
| CString.AtoiNegative | plugintest/src/command.cpp:225 | `atoi` of a minus sign followed by a numeral is the negated number. |
| CString.AtoiNonNumeric | plugintest/src/command.cpp:213 | A string that starts with neither a sign, a digit nor white space reads as 0. |
| Commands.WithAliasesLookup | plugintest/src/command.cpp:121-132 | After registration, the keys are the old keys plus the aliases. Every alias maps to the new descriptor, and every other key keeps its old descriptor. |
| Commands.RegisterKeepsWellFormed | plugintest/src/command.cpp:121-132 | Registering keeps every key among the aliases of the descriptor it maps to. |
| Commands.GiveRegisteredUnderBothAliases | plugintest/src/command.cpp:391 | Registering the give command makes both `igive` and `i` lead to it. |
| Commands.BuiltinNames | plugintest/src/command.cpp:391-394 | Each built-in descriptor's alias list joins back to the string `command_init` passes to `parseCmd`, and `parseCmd` of that string gives back the list: `igive i` gives `igive` and `i`, and `home`, `settime` and `cuboid` give one name each. |
| Commands.FourRegistrations | plugintest/src/command.cpp:391-394 | Registering four descriptors with the alias lists of lines 391-394 into an empty registry gives exactly the map from those five names to their descriptors. |
| Commands.InitialBindings | plugintest/src/command.cpp:391-394 | After `command_init`'s registrations, the registry's keys are exactly `igive`, `i`, `home`, `settime` and `cuboid`. `igive` and `i` lead to the give command, and each other name to its own command and handler. The registry is well formed. |
| Plugin.CommandPlugin.RegisterBuiltins | plugintest/src/command.cpp:391-394 | The four registrations, each tokenizing its alias string with `parseCmd`, leave the registry that `Commands.Registered` gives for the four built-in descriptors in order. The sessions and the trace are untouched. |
| Plugin.CommandPlugin.RegisterCommand | plugintest/src/command.cpp:121-132 | The registry becomes the fold of the aliases, in order, onto the old one. Every alias maps to the command, and every other key is unchanged. The sessions and the trace are untouched. |
| Commands.ChatDecisionCases | plugintest/src/command.cpp:136-173 | The four outcomes of a line. An empty line is swallowed. A line without the prefix is delivered, and so is a prefixed line whose first token is unregistered. A handler is invoked exactly when the line is prefixed and its first token is registered; it gets the registered handler, that token's name and the remaining tokens. In a well-formed registry, such as the one registration builds, the typed name is one of the invoked command's aliases. |
| Commands.CommandLineInvokes | plugintest/src/command.cpp:136-173 | `/name arg ...` with single spaces and a registered `name` invokes that command's handler with exactly those arguments. |
| Commands.ChatStepEffects | plugintest/src/command.cpp:136-173 | An empty line makes no host call. A line that is not a command is only logged. A command line is logged, then its handler runs once with the remaining tokens. Only the cuboid handler changes the sessions. |
| Commands.HomeCommand | plugintest/src/command.cpp:136-173 | A line naming a command registered with the home handler logs the line, sends the confirmation and teleports the user two blocks above the spawn point. |
| Plugin.CommandPlugin.ChatPre | plugintest/src/command.cpp:136-173 | The result is `true` exactly when the line is delivered as chat. The registry is unchanged. The sessions and the appended host calls are those of `ChatStep`. |
| Plugin.CommandPlugin.RunHandler | plugintest/src/command.cpp:167 | Calling the handler through the descriptor has the effect `HandlerStep` gives for that handler. |
| Handlers.IsValidItem | plugintest/src/command.cpp:176-199 | An id is valid exactly when it lies in 1-91 or 256-350, or is 2256 or 2257. |
| Handlers.RoundUpToBounds | plugintest/src/command.cpp:201-204 | For a positive `nearest` and `x > -nearest`, the result lies in `[x, x + nearest)`. For `x <= 0` it is never positive. |
| Handlers.StackSplit | plugintest/src/command.cpp:221-229 | A count `n >= 1` is clamped to 1024 (giving `m`) and split into `ceil(m / 64)` stacks. All stacks hold 64 except the last, which holds 1 to 64. The amounts add up to `m`. A count `n <= 0` gives no stacks. |
| Handlers.SingleItem | plugintest/src/command.cpp:221 | Without a count there is one stack of one. |
| Handlers.GiveRejects | plugintest/src/command.cpp:206-257 | A wrong number of arguments only sends the usage message. An invalid item id only sends "Not a valid item". A user whose position is unknown gets no host call. |
| Handlers.GiveSpawnsStacks | plugintest/src/command.cpp:206-243 | A valid give spawns one pickup of the item per stack, at the user's position, with the stack amounts in order. With one argument that is a single pickup of one. |
| Handlers.SpawnsAt | plugintest/src/command.cpp:232-242 | The spawns are one pickup per amount, in order, each of the item at the given position. |
| Plugin.CommandPlugin.GiveItemsSelf | plugintest/src/command.cpp:206-257 | The appended host calls are those of `GiveEffects`. |
| Plugin.CommandPlugin.SpawnStacks | plugintest/src/command.cpp:232-242 | The loop appends one spawn per stack: every stack but the last holds 64, and the last holds `itemCount`. |
| Handlers.SetTimeTable | plugintest/src/command.cpp:280-318 | With one argument: the world time set is 24000 for `day`/`morning`, 22500 for `dawn`, 6000 for `noon`, 12000 for `dusk`, 18000 for `night`/`midnight`, and `atoi` of anything else; then "World time changed." is sent. With any other argument count, only the usage message is sent. |
| Handlers.LabelValue | plugintest/src/command.cpp:286-308 | The numeral a label is replaced by reads back, through `atoi`, as the label's time. |
| Plugin.CommandPlugin.SetTime | plugintest/src/command.cpp:280-318 | The appended host calls are those of `SetTimeEffects`. |
| Plugin.CommandPlugin.Home | plugintest/src/command.cpp:259-266 | It sends "Teleported you home!", then teleports the user to the spawn point raised by 2. |
| CuboidTool.Start | plugintest/src/command.cpp:268-278 | The user gets a fresh session (active, state 0, anchor fields zero). Every other user's session is unchanged. |
| Plugin.CommandPlugin.StartCuboid | plugintest/src/command.cpp:268-278 | The sessions become those of `Start`, and the start message is sent. |
| CuboidTool.PlaceKeepsOthers | plugintest/src/command.cpp:320-367 | A placement never changes another user's session. |
| CuboidTool.PlaceTransitions | plugintest/src/command.cpp:320-367 | A user without a session gets no host call and no change. In state 0 the anchor is stored, the state becomes 1, and the first-block message is sent. In state 1 the session is always removed; if the block type or the height differs, no host call is made. Sessions stay active and in state 0 or 1. Block types are compared as unsigned bytes (the corrected line 339, see Findings). |
| CuboidTool.SecondPlacementFills | plugintest/src/command.cpp:339-358 | A second block of the anchor's type at the anchor's height sets every block of the inclusive rectangle between the two, exactly once, at that height, and nothing else. The number of calls equals the rectangle's area, and "Cuboid done" follows. |
| CuboidTool.FillOnce | plugintest/src/command.cpp:350-356 | The nested loops set each block of the rectangle exactly once and nothing else. |
| CuboidTool.FillLength | plugintest/src/command.cpp:350-356 | The nested loops make one call per block of the rectangle. |
| CuboidTool.CuboidWalkThrough | plugintest/src/command.cpp:268-367 | A worked session. Stone at (0,4,0), then stone at (2,4,0), sets the three blocks between them and ends the session. A later placement does nothing. Dirt as the second block sets nothing. |
| Plugin.CommandPlugin.BlockPlacePre | plugintest/src/command.cpp:320-367 | It always returns `true`. The sessions and the appended host calls are those of `Place`, which compares block types as unsigned bytes (the corrected line 339, see Findings). |
| Plugin.CommandPlugin.FillRectangle | plugintest/src/command.cpp:350-356 | The nested loops append exactly the calls of `Fill`. |
| CuboidTool.AsWrittenMissesHighBlocks | plugintest/src/command.cpp:333-339 | With the anchor stored as a signed `char`, a block matches its own anchor exactly when its type is below 128. The intended comparison matches every type with itself. |

## Left out

- Of `command_init` and `command_shutdown` (lines 371-406), only the four registrations of lines 391-394 are modelled (`Plugin.CommandPlugin.RegisterBuiltins`). The version checks, the log messages, the hook registration, the `dtos` formatting of a floating-point version and the clean-up at shutdown are left out. Lemmas about one handler, such as `Commands.HomeCommand`, take the binding of the name as a hypothesis; `Commands.InitialBindings` shows which names the registrations bind to which handler.
- The timestamp built in `chatPreFunction` (lines 152-156) is left out. It reads the clock and is never used.
- `user.getPosition` returns doubles that are cast to `int`. The model takes the integer positions from the host. A failed lookup is a user missing from `HostView.positions`.
- The model has no 32-bit wrap-around for `int`, and `atoi` does not overflow (its overflow is undefined in C).
- `Handlers.RoundUpToBounds`: it states the bounds but not that the result is a multiple of `nearest`. For the stack size the code passes, `Handlers.StackSplit` states that.
- `Tokenizer.Tokens`: the sentinel `"empty"` cannot be told apart from the one-word line `empty`, as in the code.
- The handlers do not receive the command name, which none of them reads. `Commands.Command` keeps the argument hint and description, but nothing reads them.
- `CuboidTool.Place`: it compares the anchor's block type with the placed one as unsigned bytes, the intended comparison of line 339. On a build where `char` is signed, the code as written erases the session without filling for block types 128-255, where the model fills the rectangle; `CuboidTool.BlockMatchesAsWritten` and `CuboidTool.AsWrittenMissesHighBlocks` model that case. `Plugin.CommandPlugin.BlockPlacePre` and `CuboidTool.PlaceTransitions` inherit this.
- The Y coordinate is a signed `char` (`Host.sbyte`). On a build where `char` is unsigned, heights would range over 0-255 instead; both sides of the height comparison have the same type, so only the range differs.
- The model has no concurrency. The hooks run one at a time.

## Findings

| source | as written | input that shows it | evidently intended | confidence | as-written member | corrected member |
|---|---|---|---|---|---|---|
| plugintest/src/command.cpp:339 | The anchor block is stored into a `char` field (line 333) and compared with the placed `unsigned char`. Where `char` is signed, types 128-255 are stored negative and never equal the placed type. | A cuboid whose two clicks both place a block of type 200. The second click erases the session without filling. | The anchor type is compared with the placed type as the same unsigned value, so every type matches itself. | medium: depends on the platform's `char` signedness; not executed | CuboidTool.AsWrittenMissesHighBlocks | CuboidTool.SecondPlacementFills |
