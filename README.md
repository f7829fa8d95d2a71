# TAI shell (taish): a verified model of its core

`taish` is a small TCP command server for TAI (Transponder Abstraction
Interface) hardware. A client sends one line per command. The shell loads a
vendor TAI library, creates a module object whenever the vendor reports a
module as present, and lets the client list the modules and set
network-interface attributes. This project models the sequential logic of
`tools/taish/tai_shell.cpp` in Dafny and proves properties of it.

- **Line protocol** (`line_protocol.dfy`):
  - `std::getline` on the client stream;
  - removal of one trailing CR;
  - `make_args`, which splits on single spaces, as a method with a loop, proved equal to a tokenising function;
  - lemmas about that function.
- **Command vocabulary** (`vocabulary.dfy`):
  - the dispatch table `cmd2handler`;
  - the closed vocabularies: 7 attribute names, 2 booleans, 6 grid spacings, 12 modulation formats, 4 API categories and 6 log levels;
  - the decision chains of `set_netif_attr` and `logset`, as pure functions that return a verdict.
- **Hardware objects** (`hardware.dfy`): `class module`. Its constructor creates the host and network interfaces in index order. `set_netif_attribute` sends one value to every network interface and stops at the first failure.
- **Registry** (`registry.dfy`), as functions of the queue:
  - what draining the presence queue does;
  - `std::map::insert`, which keeps the existing entry;
  - the key order in which `module_list` prints;
  - `tai_shell_get_module_id`.
- **Shell state and commands** (`shell.dfy`):
  - `tai_api`, the loaded library and its log-level table, as a class with an array;
  - the process globals (`p_tai_api`, `modules`, `location2module_id`, `no_of_mods`, the queue `q`), as the fields of one class;
  - `module_presence`, the drain of `main`, every command handler, and `cmd_parse`.
- **Connection slots** (`server.dfy`):
  - `tai_cli_server` (`start`, `restart`, `accept`, `disconnect`);
  - the `fds`/`nfds` handling of the poll loop in `main`, as a class over the `pollfd` array that poll rounds drive.

Foreign code becomes values, not calls:

- Every vendor entry point is a function-valued field of `TaiTypes.Vendor`. These are `create_module`, `get_module_attributes`, `create_host_interface`, `create_network_interface`, `set_network_interface_attributes`, `tai_api_initialize` and `tai_api_query`. The source discards the status of `tai_log_set`, so that call appears only in the call trace.
- `create_module` also receives the number of earlier creations, so a vendor may return a different handle for a repeated location.
- `dlopen`/`dlsym` is a function from a path to the exported symbols or the `dlerror` text.
- `std::stoull`, `std::stoi` and `std::stof` are partial functions in `TaiTypes.Parsers`. `None` stands for the exception they throw.
- The results of `poll`, `accept`, `socket`/`bind`/`listen` and `recv` are method parameters.
- The stateful vendor calls a command makes are recorded in `TaiShell.calls`. This lets contracts say "no vendor call on rejection" and state which interfaces were written.

Behaviour of the code that a reader may not expect, which this model follows:

- `module_list` prints entries in `std::map` key order, i.e. sorted by location string, not in arrival order.
- The line is split on single spaces only, not on all whitespace. Two spaces produce an empty token. A trailing space does not: `getline` does not extract a final empty token.
- A failing `set_network_interface_attributes` throws out of `cmd_parse` (`Ret.Raised`), which ends the process. Interfaces written before the failing one keep the new value. The failure is not reported as text.
- The drain constructs the module before it records the location. A repeated location keeps its first handle, while `modules` also gets the new module.

Other behaviour of the code that the model keeps:

- `cmd_parse` returns -10 without output on end of stream. A final line without `'\n'` sets eofbit, so it counts as end of stream.
- A handle that is not live is looked up with `modules[id]`, which inserts a null entry, and the command returns -1.
- While a client is held, `accept` returns the held fd. A second connection is never taken; it waits in the backlog.
- Accept fails only when no client is held, so the disconnect that `main` guards with `nfds == 3` on that path is never reached.
- Poll writes the `revents` of the first `nfds` slots only. The client slot's `revents` is stale after a disconnect. If a new client is accepted in the same round, that stale value decides whether `recv` runs on it.

## Model

| member | source | states |
|---|---|---|
| LineProtocol.MakeArgs | tools/taish/tai_shell.cpp:429-437 | the loop's result is `Tokens(s)`: one token per space-ended piece, without a final empty token; the empty line gives no tokens |
| LineProtocol.TokensHaveNoSpace | tools/taish/tai_shell.cpp:429-437 | no token contains a space |
| LineProtocol.TokensEmptyIff | tools/taish/tai_shell.cpp:429-437 | a line gives no tokens exactly when it is empty |
| LineProtocol.JoinTokens | tools/taish/tai_shell.cpp:429-437 | for a non-empty line not ending in a space, joining its tokens with single spaces gives the line back |
| LineProtocol.TokensJoin | tools/taish/tai_shell.cpp:429-437 | splitting a join of space-free tokens, with a non-empty last token, gives the tokens back |
| LineProtocol.ConsecutiveSpaces | tools/taish/tai_shell.cpp:429-437 | two consecutive spaces produce an empty token between their neighbours |
| LineProtocol.TokensCount | tools/taish/tai_shell.cpp:429-437 | the number of tokens is the number of spaces, plus one when the line does not end in a space |
| LineProtocol.GetLine | tools/taish/tai_shell.cpp:445-447 | a line is read exactly when the input holds a `'\n'`; the input is the line, the newline and the rest |
| LineProtocol.StripCR | tools/taish/tai_shell.cpp:449-451 | the result is the line, or the line minus one final `'\r'`, and it is shorter exactly when the line ends in `'\r'` |
| LineProtocol.StripCROnce | tools/taish/tai_shell.cpp:449-451 | only one CR is removed: a second one stays |
| Vocabulary.DispatchTable | tools/taish/tai_shell.cpp:63-73 | the table knows exactly nine names; `?` and `help` share a handler, and so do `quit` and `exit` |
| Vocabulary.AttrOfName | tools/taish/tai_shell.cpp:676-694 | a name is recognised exactly when it is one of the 7 attribute names, and the attribute recognised has that name |
| Vocabulary.BoolOfName | tools/taish/tai_shell.cpp:763-772 | exactly `true` and `false` are accepted, each as the boolean it names |
| Vocabulary.GridOfName | tools/taish/tai_shell.cpp:706-723 | exactly the 6 grid texts are accepted, each as the spacing it names |
| Vocabulary.ModulationOfName | tools/taish/tai_shell.cpp:733-762 | exactly the 12 modulation texts are accepted, each as the format it names |
| Vocabulary.ToU16 | tools/taish/tai_shell.cpp:724-726 | the int from `stoi` is stored modulo 2^16 in the u16 member |
| Vocabulary.ParseValue | tools/taish/tai_shell.cpp:696-776 | a value is produced exactly when the text is in the vocabulary of that attribute (or the number parser accepts it), and the value denotes the text; a rejected word gives a message, a failed number conversion throws |
| Vocabulary.ValidateSetNetifAttr | tools/taish/tai_shell.cpp:641-780 | one token prints the usage; the command applies exactly when there are 4 tokens, a library is loaded, the id parses to a live module, and the name and value are in their vocabularies; an id that parses but is not live is reported as unknown; it throws exactly when the id does not parse or a number conversion of the value fails; a wrong token count, a missing library and an unknown attribute name are rejected with their messages |
| Vocabulary.GridOutsideRejected | tools/taish/tai_shell.cpp:706-723 | a grid value outside the six is rejected with the grid message |
| Vocabulary.BoolOutsideRejected | tools/taish/tai_shell.cpp:763-772 | a tx-enable or differential-encoding value other than `true`/`false` is rejected with the boolean message |
| Vocabulary.ModulationOutsideRejected | tools/taish/tai_shell.cpp:733-762 | a modulation value outside the twelve is rejected with the modulation message |
| Vocabulary.CategoryOfName | tools/taish/tai_shell.cpp:596-608 | exactly the 4 category names are accepted, each as the category it names |
| Vocabulary.LevelOfName | tools/taish/tai_shell.cpp:610-632 | exactly the 6 level names are accepted, each as the level it names |
| Vocabulary.ValidateLogset | tools/taish/tai_shell.cpp:584-639 | the update applies exactly when there are 3 tokens, a library is loaded, and the category and the level are among their names; a wrong token count, a missing library and an unknown category are rejected with their messages; a bad level gives the message as line 630 writes it, with `args[1]` in it |
| Vocabulary.AsWrittenLevelMessageHidesLevel | tools/taish/tai_shell.cpp:610-632 | as written, `logset module verbose` and `logset module loud` are rejected with the same message, which names the category `module` |
| Vocabulary.InvalidLevelMessageNamesLevel | tools/taish/tai_shell.cpp:630 | with the level in the message, different rejected levels give different messages |
| Hardware.CreateInterfaces | tools/taish/tai_shell.cpp:123-159 | success exactly when every creation 0..num-1 succeeds; handle i is the one created with index i |
| Hardware.Module.constructor | tools/taish/tai_shell.cpp:97-112 | the module is complete exactly when the counts query and every interface creation succeed; a complete module holds exactly the reported numbers of host and network interfaces, interface i created with index i |
| Hardware.Module.SetNetifAttribute | tools/taish/tai_shell.cpp:161-176 | the calls go to the network interfaces in creation order with the same attribute and value; success exactly when every interface accepts; on failure the last call made is the failing one and all earlier ones succeeded (no rollback) |
| Registry.PresentLocationsIn | tools/taish/tai_shell.cpp:263-289 | a location is created by the drain exactly when some present entry of the queue carries it |
| Registry.DrainOutcomeDrained | tools/taish/tai_shell.cpp:263-289 | the drain ends with the queue empty exactly when every create_module call succeeds and every constructor completes |
| Registry.DrainPrefix | tools/taish/tai_shell.cpp:263-289 | a drain that succeeds on a queue succeeds on each of its prefixes |
| Registry.InsertedKeys | tools/taish/tai_shell.cpp:282 | after the inserts the registry holds exactly the old locations and the inserted ones |
| Registry.InsertedKeeps | tools/taish/tai_shell.cpp:282 | an already registered location keeps its handle |
| Registry.InsertedFirst | tools/taish/tai_shell.cpp:282 | a new location gets the handle of its first occurrence |
| Registry.DrainDistinctLocations | tools/taish/tai_shell.cpp:263-289 | draining N present entries with distinct, unregistered locations adds exactly N entries, each resolving to the handle created for it |
| Registry.DrainRegistersPresent | tools/taish/tai_shell.cpp:263-289 | after a drain, every present location resolves, and old entries are unchanged |
| Registry.GetModuleId | tools/taish/tai_shell.cpp:909-920 | 0 and the id exactly when the location is registered, -1 otherwise |
| Registry.LessTotal | tools/taish/tai_shell.cpp:789 | the key order of `std::map<std::string,...>` is total, so the listing order is determined |
| Registry.DecimalRoundTrip | tools/taish/tai_shell.cpp:790 | the decimal text printed for a module id reads back as that id |
| Registry.ListRegistry | tools/taish/tai_shell.cpp:788-791 | the header, then one line per registered location, each exactly once, in strictly increasing key order |
| Shell.TaiApi.constructor | tools/taish/tai_shell.cpp:490-492 | every entry of the log-level table starts at INFO |
| Shell.TaiShell.constructor | tools/taish/tai_shell.cpp:47-61 | no library, no modules, an empty registry and queue, no_of_mods 0 |
| Shell.TaiShell.ModulePresence | tools/taish/tai_shell.cpp:184-189 | the notification is appended to the back of the queue |
| Shell.TaiShell.CreateModule | tools/taish/tai_shell.cpp:272-283 | create_module, then construct; on success exactly the new module is stored under its id, and the location is inserted unless already registered |
| Shell.TaiShell.Drain | tools/taish/tai_shell.cpp:263-289 | the drain ends at the first present entry whose create_module fails (carrying that call's status) or whose constructor throws, and is drained exactly when neither happens; then the queue is empty, no_of_mods grew by the queue length, present entries included, and the registry is the in-order insert of the present locations |
| Shell.TaiShell.CommandLoad | tools/taish/tai_shell.cpp:495-519 | returns -1 for a wrong count, an already loaded library or a failed dlopen; otherwise a fresh library with every log level at INFO |
| Shell.TaiShell.SendLogLevels | tools/taish/tai_shell.cpp:536-540 | when `tai_log_set` is exported, one call per category in table order, each with that category's level |
| Shell.TaiShell.InitializeAndQuery | tools/taish/tai_shell.cpp:542-568 | initialize, then the module, network-interface and host-interface queries, stopping at the first failure with -1 |
| Shell.TaiShell.CommandInit | tools/taish/tai_shell.cpp:521-571 | -1 with no vendor call for a wrong count or no library; otherwise the log_set calls, then initialize and the queries |
| Shell.TaiShell.CommandLogset | tools/taish/tai_shell.cpp:584-639 | on rejection the table and the vendor calls are unchanged; on success nothing is written, only the entry of the category changes, to the level, and `tai_log_set` is told when exported |
| Shell.TaiShell.CommandSetNetifAttr | tools/taish/tai_shell.cpp:641-780 | on every rejection no vendor call is made and no module changes; an unknown id adds a null entry; a conversion that throws writes no text and changes no module; an accepted command writes no text, writes the value to the module's interfaces in order and returns 0 only if all accept; otherwise it throws after the first failing write, every earlier write having succeeded |
| Shell.TaiShell.CommandModuleList | tools/taish/tai_shell.cpp:782-792 | exactly one token is required; the output is the sorted listing of the registry |
| Shell.TaiShell.Run | tools/taish/tai_shell.cpp:458-461 | the handler that the table names runs: its return value is the expected one for that command, and its output, vendor calls and changes to the library, the log-level table and the module table are that handler's; quit returns -10 |
| Shell.TaiShell.Dispatch | tools/taish/tai_shell.cpp:455-466 | an empty line does nothing; an unknown first token writes the unknown-command message and returns 0 with nothing changed; a known one has the effect of its handler |
| Shell.TaiShell.CmdParse | tools/taish/tai_shell.cpp:439-473 | end of stream returns -10 with no output and no change; otherwise the return value and the effect are the command's, and the output is the handler's followed by the prompt unless the handler threw |
| Shell.QuitEndsSession | tools/taish/tai_shell.cpp:580-582 | `quit` and `exit` make cmd_parse return -10 |
| Server.CliServer.constructor | tools/taish/tai_shell.cpp:343-345 | no socket is open before start |
| Server.CliServer.Start | tools/taish/tai_shell.cpp:347-382 | the listening fd, or -1 with no listening socket |
| Server.CliServer.Restart | tools/taish/tai_shell.cpp:384-388 | like start, after closing the listening socket |
| Server.CliServer.Accept | tools/taish/tai_shell.cpp:390-414 | a held client's fd is returned unchanged; otherwise a new fd, 0 for EWOULDBLOCK/EINTR, -1 for any other error |
| Server.CliServer.Disconnect | tools/taish/tai_shell.cpp:416-423 | the client fd becomes -1 |
| Server.EventLoop.constructor | tools/taish/tai_shell.cpp:248-253 | slot 0 is the eventfd, slot 1 the fd from start, two slots polled |
| Server.EventLoop.Poll | tools/taish/tai_shell.cpp:255 | poll writes revents for the polled slots only |
| Server.EventLoop.ListenSlot | tools/taish/tai_shell.cpp:291-323 | an accepted fd > 0 becomes the client and three slots are polled; a held client is kept; accept giving 0 changes nothing and the loop goes on; an accept error or another event drops the client and restarts, and a failed restart returns -1 |
| Server.EventLoop.RestartServer | tools/taish/tai_shell.cpp:302-308 | the listening slot gets the new fd when restart gives one > 0, else main returns -1 |
| Server.EventLoop.ClientSlot | tools/taish/tai_shell.cpp:325-334 | -10 from recv or any other event disconnects and returns to two slots; any other recv result keeps the client |
| Server.EventLoop.Step | tools/taish/tai_shell.cpp:255-338 | EAGAIN/EINTR changes nothing; another poll error returns -1; a readable eventfd drains the queue before the slots are handled: main returns 1 exactly when a create_module of the drain fails, a throwing constructor ends the process, and a round that goes on leaves the queue empty and the registry updated; a round whose eventfd is not readable does not drain |
| Server.EventLoop.RunRounds | tools/taish/tai_shell.cpp:254-339 | rounds run until one ends main; every round that continues keeps the slot invariant |

## Left out

- Sockets, `poll`, `eventfd` and the stream buffers are OS I/O, so only the integer results reach the model. So are `getopt`, the `std::cout`/`std::cerr` logging and the eventfd `read`/`write`.
- Mutexes and threads are concurrency. The model is single-threaded: `tai_shell_mutex`, `std::mutex m`, the shell thread of `tai_shell_start`, and the `usleep` wait of `tai_shell_cmd_init`.
- The API-mode entry points (`tai_shell_start`, `tai_shell_thread`, `tai_shell_cmd_load`, `tai_shell_cmd_init`, `tai_shell_cmd_set_netif_attr`) are not part of this model. They are wrappers around the modelled logic for library use.
- Dynamic loading is foreign and becomes `Env.dlopen`: the symbols a library exports, or the `dlerror` text. The symbols other than `initialize`, `query` and `log_set` are never called by the core.
- Number conversion is abstract: `stoull`, `stoi` and `stof` are partial functions. Their overflow rules and `stof`'s floating point are not modelled.
- `buf.back()` on an empty line is undefined behaviour in C++. The model treats an empty line as having no CR, and it gives no tokens.
- The `tai.h` and `tai_shell.hpp` headers are not part of this model. Enumeration codes are datatype constructors. `TAI_API_MAX` is taken as 4, one entry per named category, and the initial client fd as -1.
- A null `module_api`, `netif_api` or `hostif_api` (a drain or command before `init`) is not modelled.
- Ownership of memory is not modelled: the `new` of `args`, the leaked `module` of a repeated location, and the `delete` in `disconnect`.
- The events reset loop at lines 336-338 is not modelled, because it always writes POLLIN.
- The uninitialised `v` written to the eventfd (line 188) is not modelled: the value is never read.
- The `revents` of the client slot of `fds` (line 208) is never initialised in the source. In the round that accepts the first client, line 325 reads that indeterminate value, and it decides whether `recv` runs on the new client. The model starts that entry at 0, so such a round does not run `recv` and keeps the client.
- CommandLoad, CommandInit and InitializeAndQuery: the contracts state return values and vendor calls, but not the message texts written.
- Server.EventLoop.Step: the contract states the poll outcomes and the drain, but not the slot transitions, which are stated on ListenSlot and ClientSlot.
- Server.EventLoop.Step and Server.EventLoop.ClientSlot: the round takes the result of `cli_server->recv()` (line 326) as a parameter and does not run `cmd_parse`. The effect of the command on the library, the log-level table and the module table is stated on Shell.TaiShell.CmdParse, not on the round. A command that throws is not one of the ways a round ends, and `Step`'s `unchanged(shell)` for a round without a readable eventfd leaves out that command.
- Shell.TaiShell.Run, Dispatch and CmdParse: `init` passes `module_presence` to `tai_api_initialize` as a callback (line 534). A vendor may call it before `initialize` returns. The model treats such notifications as ModulePresence calls made after the command, so these members keep the queue unchanged.
- Server.EventLoop.RunRounds: the contract states only that the slot invariant holds after every round that continues.
- Registry.DrainDistinctLocations: that the handles are distinct is up to the vendor and is not stated.

## Findings

| source | as written | input that shows it | evidently intended | confidence | as-written member | corrected member |
|---|---|---|---|---|---|---|
| tools/taish/tai_shell.cpp:630 | the invalid-level message prints `(*args)[1]`, the category | `logset module verbose` prints `Invalid log-level(module) was specified!!` | print `(*args)[2]`, the rejected level: `Invalid log-level(verbose) was specified!!` | not executed | Vocabulary.AsWrittenLevelMessageHidesLevel | Vocabulary.InvalidLevelMessageNamesLevel |

The command model prints the message as the code writes it (`ValidateLogset` uses `InvalidLevelMessageAsWritten`). `InvalidLevelMessage` is the intended text; the lemma beside it proves that it tells rejected levels apart.
