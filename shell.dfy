/**
 * The shell's global state and its commands: the loaded library with its
 * log-level table, the module table and location registry, the presence
 * queue and its drain, the command handlers and cmd_parse.
 */
module Shell {
  import opened TaiTypes
  import opened LineProtocol
  import opened Vocabulary
  import opened Hardware
  import opened Registry

  /** A loaded TAI library (tai_api): which symbols it exports and the log-level table. */
  class TaiApi {
    const symbols: Symbols
    const logLevel: array<LogLevel>

    /** Every entry of the log-level table starts at INFO. */
    constructor (symbols: Symbols)
      ensures this.symbols == symbols
      ensures fresh(logLevel) && logLevel.Length == ApiMax
      ensures forall i :: 0 <= i < ApiMax ==> logLevel[i] == Info
    {
      this.symbols := symbols;
      logLevel := new LogLevel[ApiMax];
      new;
      for i := 0 to ApiMax
        invariant forall k :: 0 <= k < i ==> logLevel[k] == Info
      {
        logLevel[i] := Info;
      }
    }
  }

  /** The category whose tai_api_t value is i. */
  function CategoryAt(i: nat): (c: ApiCategory)
    requires i < ApiMax
    ensures c.Index() == i
  {
    if i == 0 then Unspecified else if i == 1 then ModuleApi else if i == 2 then HostIfApi else NetworkIfApi
  }

  /** The log_set calls of init, one per category in table order. */
  function LogSetCalls(levels: seq<LogLevel>): (cs: seq<VendorCall>)
    requires |levels| == ApiMax
    ensures |cs| == ApiMax
    ensures forall i :: 0 <= i < ApiMax ==> cs[i] == LogSetCall(CategoryAt(i), levels[i])
  {
    seq(ApiMax, i requires 0 <= i < ApiMax => LogSetCall(CategoryAt(i), levels[i]))
  }

  /** The tai_api_query calls of init, which stop at the first failure. */
  function QueryCalls(v: Vendor): seq<VendorCall>
  {
    [QueryCall(ModuleApi)] +
    if v.query(ModuleApi) != Success then []
    else [QueryCall(NetworkIfApi)] + if v.query(NetworkIfApi) != Success then [] else [QueryCall(HostIfApi)]
  }

  /** The vendor calls init makes after the log_set calls. */
  function InitTail(sym: Symbols, v: Vendor): seq<VendorCall>
  {
    (if sym.hasInitialize then [InitializeCall] else []) +
    (if (sym.hasInitialize && v.initialize != Success) || !sym.hasQuery then [] else QueryCalls(v))
  }

  /** The vendor calls init makes with a library that exports the given symbols. */
  function InitCalls(sym: Symbols, levels: seq<LogLevel>, v: Vendor): seq<VendorCall>
    requires |levels| == ApiMax
  {
    (if sym.hasLogSet then LogSetCalls(levels) else []) + InitTail(sym, v)
  }

  /** The return value of init for a loaded library. */
  function InitStatus(sym: Symbols, v: Vendor): int
  {
    if sym.hasInitialize && v.initialize != Success then -1
    else if sym.hasQuery &&
      (v.query(ModuleApi) != Success || v.query(NetworkIfApi) != Success || v.query(HostIfApi) != Success)
    then -1
    else 0
  }

  const HelpText: string :=
    "?     : show help messages for all commands\n" +
    "help  : show help messages for all commands\n" +
    "load  : load a TAI librarary: Usage: load <TAI librabry file name> \n" +
    "init  : Initialize TAI API.: Usage: init\n" +
    "quit  : Quit this session.\n" +
    "exit  : Exit this session.\n" +
    "logset: Set log level.: Usage: logset [module|hostif|networkif] [debug|info|notice|warn|error|critical] \n" +
    "set_netif_attr: Set netif attribute. : Usage: set_netif_attr <module-id> <attr-id> <attr-val> \n" +
    "module_list: Show the module ID.\n"

  function UnknownCommand(name: string): string
  {
    "unknown command(" + name + ") was speified!!\n"
  }

  /**
   * The module table holds the entries of mods0 and a constructed module
   * for each created handle, and the entries of mods0 not created over
   * are unchanged.
   */
  ghost predicate ModulesAfter(mods0: map<Handle, Module?>, created: seq<Handle>, mods: map<Handle, Module?>)
  {
    && (forall h :: h in mods <==> h in mods0 || h in created)
    && (forall h :: h in created ==> mods[h] != null)
    && (forall h :: h in mods0 && h !in created ==> mods[h] == mods0[h])
  }

  /** Storing a constructed module under one more created handle. */
  lemma ModulesAfterStore(mods0: map<Handle, Module?>, created: seq<Handle>, mods: map<Handle, Module?>,
                          h: Handle, m: Module)
    requires ModulesAfter(mods0, created, mods)
    ensures ModulesAfter(mods0, created + [h], mods[h := m])
  {
    assert forall x :: x in created + [h] <==> x in created || x == h;
  }

  /**
   * The values the drain has reached after popping q0[..k], starting from
   * n0 creations, the registry reg0 and the module table mods0.
   */
  ghost predicate Popped(v: Vendor, q0: seq<Presence>, k: nat, n0: nat, reg0: map<string, Handle>,
                         mods0: map<Handle, Module?>, creations: nat, reg: map<string, Handle>,
                         mods: map<Handle, Module?>)
  {
    && k <= |q0|
    && creations == n0 + |PresentLocations(q0[..k])|
    && DrainSucceeds(v, q0[..k], n0)
    && reg == RegistryAfter(v, q0[..k], reg0, n0)
    && ModulesAfter(mods0, CreatedHandles(v, q0[..k], n0), mods)
  }

  /** Popping entry k: a present one stores its module m and inserts its location. */
  lemma PoppedStep(v: Vendor, q0: seq<Presence>, k: nat, n0: nat, reg0: map<string, Handle>,
                   mods0: map<Handle, Module?>, c: nat, reg: map<string, Handle>,
                   mods: map<Handle, Module?>, m: Module?)
    requires k < |q0| && Popped(v, q0, k, n0, reg0, mods0, c, reg, mods)
    requires q0[k].present ==>
      var r := v.createModule(q0[k].location, c);
      r.status == Success && Builds(v, r.handle) && m != null
    ensures q0[k].present ==>
      var r := v.createModule(q0[k].location, c);
      Popped(v, q0, k + 1, n0, reg0, mods0, c + 1,
             if q0[k].location in reg then reg else reg[q0[k].location := r.handle], mods[r.handle := m])
    ensures !q0[k].present ==> Popped(v, q0, k + 1, n0, reg0, mods0, c, reg, mods)
  {
    DrainStep(v, q0, k, n0);
    RegistryStep(v, q0, k, reg0, n0);
    DrainExtends(v, q0, k, n0);
    var r := v.createModule(q0[k].location, c);
    var hs, hs' := CreatedHandles(v, q0[..k], n0), CreatedHandles(v, q0[..k + 1], n0);
    if q0[k].present {
      assert hs' == hs + [r.handle];
      ModulesAfterStore(mods0, hs, mods, r.handle, m);
    } else {
      assert hs' == hs;
    }
  }

  /** The ids whose entry in a module table holds a constructed module. */
  function LiveIn(modules: map<Handle, Module?>): (ids: set<Handle>)
    ensures forall h :: h in ids <==> h in modules && modules[h] != null
  {
    set h | h in modules && modules[h] != null
  }

  /** The library, its log-level table, the module table and the vendor calls at one moment. */
  datatype Snapshot = Snapshot(api: TaiApi?, levels: seq<LogLevel>, modules: map<Handle, Module?>, calls: seq<VendorCall>)

  /** The process-wide state of the shell and the commands that read and change it. */
  class TaiShell {
    /** The vendor library, dlopen and the number parsers, fixed for the run. */
    const env: Env
    /** p_tai_api: null until a library is loaded. */
    var api: TaiApi?
    /** modules: set_netif_attr's lookup can insert null entries. */
    var modules: map<Handle, Module?>
    /** location2module_id */
    var location2moduleId: map<string, Handle>
    /** no_of_mods */
    var noOfMods: int
    /** q: the presence notifications not yet drained, oldest first. */
    var queue: seq<Presence>
    /** The number of create_module calls made so far. */
    var creations: nat
    /** The stateful vendor calls made by commands, oldest first. */
    var calls: seq<VendorCall>

    ghost predicate Valid()
      reads this`api, this`modules, this`location2moduleId
    {
      && (api != null ==> api.logLevel.Length == ApiMax)
      && (forall h :: h in modules && modules[h] != null ==>
            modules[h].id == h && modules[h].complete && modules[h].BuiltBy(env.tai))
      && (forall loc :: loc in location2moduleId ==>
            location2moduleId[loc] in modules && modules[location2moduleId[loc]] != null)
    }

    constructor (env: Env)
      ensures Valid()
      ensures this.env == env && api == null
      ensures modules == map[] && location2moduleId == map[] && noOfMods == 0
      ensures queue == [] && creations == 0 && calls == []
    {
      this.env := env;
      api := null;
      modules := map[];
      location2moduleId := map[];
      noOfMods := 0;
      queue := [];
      creations := 0;
      calls := [];
    }

    /** The log-level table, the one object outside `this` that commands change. */
    function LogLevels(): set<object>
      reads this`api
    {
      if api == null then {} else {api.logLevel}
    }

    /** The ids whose entry in the module table holds a constructed module. */
    function LiveIds(): (ids: set<Handle>)
      reads this`modules
      ensures forall h :: h in ids <==> h in modules && modules[h] != null
    {
      LiveIn(modules)
    }

    /** module_presence: the vendor's callback appends to the back of the queue. */
    method ModulePresence(present: bool, location: string)
      modifies this`queue
      ensures queue == old(queue) + [Presence(present, location)]
    {
      queue := queue + [Presence(present, location)];
    }

    /**
     * The drain in main: pop every queued entry in order; for a present one
     * create the module, construct it, store it and insert its location.
     */
    method Drain() returns (st: DrainStatus)
      requires Valid()
      modifies this`modules, this`location2moduleId, this`noOfMods, this`queue, this`creations
      ensures st == DrainOutcome(env.tai, old(queue), old(creations))
      ensures st == Drained <==> DrainSucceeds(env.tai, old(queue), old(creations))
      ensures st == Drained ==>
        && Valid()
        && queue == []
        && noOfMods == old(noOfMods) + |old(queue)|
        && creations == old(creations) + |PresentLocations(old(queue))|
        && location2moduleId == RegistryAfter(env.tai, old(queue), old(location2moduleId), old(creations))
        && (forall h :: h in modules <==> h in old(modules) || h in CreatedHandles(env.tai, old(queue), old(creations)))
        && (forall h :: h in CreatedHandles(env.tai, old(queue), old(creations)) ==> modules[h] != null)
        && (forall h :: h in old(modules) && h !in CreatedHandles(env.tai, old(queue), old(creations)) ==>
              modules[h] == old(modules)[h])
    {
      ghost var q0, n0, reg0, mods0 := queue, creations, location2moduleId, modules;
      ghost var k := 0;
      assert q0[..0] == [];
      while queue != []
        invariant 0 <= k <= |q0| && queue == q0[k..]
        invariant noOfMods == old(noOfMods) + k
        invariant DrainedPrefix(q0, k, n0, reg0, mods0)
        decreases |queue|
      {
        var p := queue[0];
        st := DrainEntry(p, q0, k, n0, reg0, mods0);
        if st != Drained {
          return;
        }
        noOfMods := noOfMods + 1;
        queue := queue[1..];
        k := k + 1;
      }
      assert q0[..k] == q0;
      DrainOutcomeDrained(env.tai, q0, n0);
      st := Drained;
    }

    /** The state after the drain has popped q0[..k] is the one Popped describes, and it is valid. */
    ghost predicate DrainedPrefix(q0: seq<Presence>, k: nat, n0: nat, reg0: map<string, Handle>, mods0: map<Handle, Module?>)
      reads this`api, this`modules, this`location2moduleId, this`creations
    {
      Popped(env.tai, q0, k, n0, reg0, mods0, creations, location2moduleId, modules) && Valid()
    }

    /** One pass of the drain loop: entry p == q0[k], created when present. */
    method DrainEntry(p: Presence, ghost q0: seq<Presence>, ghost k: nat, ghost n0: nat,
                      ghost reg0: map<string, Handle>, ghost mods0: map<Handle, Module?>)
      returns (st: DrainStatus)
      requires k < |q0| && p == q0[k] && DrainedPrefix(q0, k, n0, reg0, mods0)
      modifies this`modules, this`location2moduleId, this`creations
      ensures st == Drained ==> DrainedPrefix(q0, k + 1, n0, reg0, mods0)
      ensures st != Drained ==> st == DrainOutcome(env.tai, q0, n0) && !DrainSucceeds(env.tai, q0, n0)
    {
      ghost var c, reg, mods := creations, location2moduleId, modules;
      ghost var r := env.tai.createModule(p.location, c);
      st := Drained;
      if p.present {
        st := CreateModule(p.location);
        if st != Drained {
          DrainOutcomeAt(env.tai, q0, k, n0);
          return;
        }
        PoppedStep(env.tai, q0, k, n0, reg0, mods0, c, reg, mods, modules[r.handle]);
      } else {
        PoppedStep(env.tai, q0, k, n0, reg0, mods0, c, reg, mods, null);
      }
    }

    /**
     * One present entry of the drain: create_module, construct the module,
     * store it under its id and insert its location unless already registered.
     */
    method CreateModule(location: string) returns (st: DrainStatus)
      requires Valid()
      modifies this`modules, this`location2moduleId, this`creations
      ensures var r := env.tai.createModule(location, old(creations));
        && (st == Drained <==> r.status == Success && Builds(env.tai, r.handle))
        && (st.CreateFailed? ==> st.status == r.status && r.status != Success)
        && (st == ConstructorThrew ==> r.status == Success)
        && (st == Drained ==>
              && Valid()
              && creations == old(creations) + 1
              && (forall h :: h in modules <==> h in old(modules) || h == r.handle)
              && modules[r.handle] != null
              && modules == old(modules)[r.handle := modules[r.handle]]
              && (forall h :: h in old(modules) && h != r.handle ==> modules[h] == old(modules)[h])
              && location2moduleId ==
                   if location in old(location2moduleId) then old(location2moduleId)
                   else old(location2moduleId)[location := r.handle])
    {
      var r := env.tai.createModule(location, creations);
      if r.status != Success {
        return CreateFailed(r.status);
      }
      creations := creations + 1;
      var m := new Module(env.tai, r.handle);
      if !m.complete {
        return ConstructorThrew;
      }
      modules := modules[r.handle := m];
      if location !in location2moduleId {
        location2moduleId := location2moduleId[location := r.handle];
      }
      st := Drained;
    }

    /** The handler's return value, as each command's checks decide it. */
    ghost function Expected(cmd: Command, args: seq<string>): Ret
      reads this`api, this`modules, this`location2moduleId
      requires Valid()
    {
      match cmd
      case Help => Ret(0)
      case Quit => Ret(EndSession)
      case Load =>
        if |args| != 2 || api != null || env.dlopen(args[1]).LoadFailed? then Ret(-1) else Ret(0)
      case Init =>
        if |args| != 1 || api == null then Ret(-1) else Ret(InitStatus(api.symbols, env.tai))
      case Logset =>
        if ValidateLogset(args, api != null).LogApply? then Ret(0) else Ret(-1)
      case SetNetifAttr =>
        (match ValidateSetNetifAttr(args, api != null, LiveIds(), env.parse)
         case Apply(id, a, v) =>
           if modules[id].Accepts(env.tai, a, v) then Ret(0) else Raised
         case Throw => Raised
         case _ => Ret(-1))
      case ModuleList =>
        if |args| == 1 then Ret(0) else Ret(-1)
    }

    /** The parts of the state that commands change, as values. */
    ghost function Now(): Snapshot
      reads this`api, this`modules, this`calls, LogLevels()
    {
      Snapshot(api, if api == null then [] else api.logLevel[..], modules, calls)
    }

    /** The loaded library and its log-level table are those of b. */
    ghost predicate TableKept(b: Snapshot)
      reads this`api, LogLevels()
    {
      api == b.api && (api != null ==> api.logLevel[..] == b.levels)
    }

    /**
     * What the handler of cmd does, from the state b, besides returning st:
     * the output it writes, the vendor calls it makes and the state it changes.
     */
    ghost predicate Effect(cmd: Command, args: seq<string>, st: Ret, out: string, b: Snapshot)
      reads this, LogLevels()
    {
      match cmd
      case Help => out == HelpText && TableKept(b) && modules == b.modules && calls == b.calls
      case Quit => out == "" && TableKept(b) && modules == b.modules && calls == b.calls
      case Load => LoadEffect(args, st, b)
      case Init => InitEffect(args, b)
      case Logset => LogsetEffect(args, out, b)
      case SetNetifAttr => SetNetifAttrEffect(args, st, out, b)
      case ModuleList => ModuleListEffect(args, out, b)
    }

    /** load: on success a library is loaded where none was, with every level at INFO. */
    ghost predicate LoadEffect(args: seq<string>, st: Ret, b: Snapshot)
      reads this, LogLevels()
    {
      && modules == b.modules && calls == b.calls
      && (st == Ret(0) ==>
            && |args| == 2 && b.api == null && api != null
            && env.dlopen(args[1]) == Loaded(api.symbols)
            && api.logLevel.Length == ApiMax && forall i :: 0 <= i < ApiMax ==> api.logLevel[i] == Info)
      && (st != Ret(0) ==> TableKept(b))
    }

    /** init: the log_set, initialize and query calls, and nothing else changes. */
    ghost predicate InitEffect(args: seq<string>, b: Snapshot)
      reads this, LogLevels()
    {
      && TableKept(b) && modules == b.modules
      && (|args| != 1 || api == null ==> calls == b.calls)
      && (|args| == 1 && api != null ==>
            api.logLevel.Length == ApiMax &&
            calls == b.calls + InitCalls(api.symbols, api.logLevel[..], env.tai))
    }

    /**
     * logset: a rejection writes its message; an update writes nothing, sets
     * one entry and tells the library.
     */
    ghost predicate LogsetEffect(args: seq<string>, out: string, b: Snapshot)
      reads this, LogLevels()
    {
      var verdict := ValidateLogset(args, api != null);
      && api == b.api && modules == b.modules
      && (verdict.LogReject? ==> out == verdict.msg && calls == b.calls && TableKept(b))
      && (verdict.LogApply? ==>
            && api != null && api.logLevel.Length == ApiMax && |b.levels| == ApiMax
            && api.logLevel[..] == b.levels[verdict.category.Index() := verdict.level]
            && calls == b.calls + (if api.symbols.hasLogSet then [LogSetCall(verdict.category, verdict.level)] else [])
            && out == "")
    }

    /**
     * set_netif_attr: no vendor call unless the command applies; an unknown
     * id adds a null entry; a throw and an applied command write no text, and
     * an applied one writes to the interfaces in order,
     * every write before the last one succeeding, and throws after the first
     * write that fails.
     */
    ghost predicate SetNetifAttrEffect(args: seq<string>, st: Ret, out: string, b: Snapshot)
      reads this, LogLevels()
    {
      var verdict := ValidateSetNetifAttr(args, b.api != null, LiveIn(b.modules), env.parse);
      && TableKept(b) && LiveIds() == LiveIn(b.modules)
      && (!verdict.Apply? ==> calls == b.calls)
      && (verdict.Reject? ==> modules == b.modules && out == verdict.msg)
      && (verdict.UnknownModule? ==>
            out == InvalidModuleId &&
            modules == if verdict.id in b.modules then b.modules else b.modules[verdict.id := null])
      && (verdict.Throw? ==> modules == b.modules && out == "")
      && (verdict.Apply? ==>
            && modules == b.modules && out == "" && verdict.id in modules && modules[verdict.id] != null
            && |b.calls| <= |calls| && calls[..|b.calls|] == b.calls
            && modules[verdict.id].WriteTrace(env.tai, verdict.attr, verdict.value, calls[|b.calls|..], st == Ret(0)))
    }

    /** module_list: the sorted listing, and nothing changes. */
    ghost predicate ModuleListEffect(args: seq<string>, out: string, b: Snapshot)
      reads this, LogLevels()
    {
      && TableKept(b) && modules == b.modules && calls == b.calls
      && (|args| != 1 ==> out == ModuleListUsage)
      && (|args| == 1 ==> ListsRegistry(out, location2moduleId))
    }

    /** tai_command_load, with dlopen and dlsym as the environment's dlopen. */
    method CommandLoad(args: seq<string>) returns (st: Ret, out: string)
      requires Valid()
      modifies this`api
      ensures Valid()
      ensures st == old(Expected(Load, args))
      ensures st == Ret(0) ==> api != null && fresh(api) && fresh(api.logLevel)
      ensures st == Ret(0) ==> env.dlopen(args[1]) == Loaded(api.symbols)
      ensures st == Ret(0) ==> forall i :: 0 <= i < ApiMax ==> api.logLevel[i] == Info
      ensures st != Ret(0) ==> api == old(api)
      ensures LoadEffect(args, st, old(Now()))
    {
      if |args| != 2 {
        return Ret(-1), "%% Need to specify the path to TAI library\n";
      }
      if api != null {
        return Ret(-1), "%% TAI library is already loaded!!\n";
      }
      match env.dlopen(args[1])
      case LoadFailed(reason) =>
        return Ret(-1), "%% Loading " + args[1] + " failed!!\n" + reason + "\n";
      case Loaded(sym) =>
        api := new TaiApi(sym);
        return Ret(0), "";
    }

    /** The loop of init that hands every category's table entry to tai_log_set. */
    method SendLogLevels()
      requires api != null && api.logLevel.Length == ApiMax
      modifies this`calls
      ensures calls == old(calls) + (if api.symbols.hasLogSet then LogSetCalls(api.logLevel[..]) else [])
    {
      if api.symbols.hasLogSet {
        ghost var c0 := calls;
        ghost var all := LogSetCalls(api.logLevel[..]);
        for i := 0 to ApiMax
          invariant calls == c0 + all[..i]
        {
          assert all[..i + 1] == all[..i] + [LogSetCall(CategoryAt(i), api.logLevel[i])];
          calls := calls + [LogSetCall(CategoryAt(i), api.logLevel[i])];
        }
        assert all[..ApiMax] == all;
      }
    }

    /** tai_command_init: log_set for every category, then initialize and the three queries. */
    method CommandInit(args: seq<string>) returns (st: Ret, out: string)
      requires Valid()
      modifies this`calls
      ensures Valid()
      ensures st == old(Expected(Init, args))
      ensures |args| != 1 || api == null ==> calls == old(calls)
      ensures |args| == 1 && api != null ==> calls == old(calls) + InitCalls(api.symbols, api.logLevel[..], env.tai)
      ensures InitEffect(args, old(Now()))
    {
      if |args| != 1 {
        return Ret(-1), InvalidParams;
      }
      if api == null {
        return Ret(-1), NeedLoad;
      }
      ghost var c0 := calls;
      ghost var logSets := if api.symbols.hasLogSet then LogSetCalls(api.logLevel[..]) else [];
      SendLogLevels();
      st, out := InitializeAndQuery(api.symbols);
      assert calls == c0 + (logSets + InitTail(api.symbols, env.tai));
    }

    /** The rest of init: tai_api_initialize, then query the module, network and host interface APIs. */
    method InitializeAndQuery(sym: Symbols) returns (st: Ret, out: string)
      modifies this`calls
      ensures st == Ret(InitStatus(sym, env.tai))
      ensures calls == old(calls) + InitTail(sym, env.tai)
    {
      if sym.hasInitialize {
        calls := calls + [InitializeCall];
        if env.tai.initialize != Success {
          return Ret(-1), "%% Failed to initialize\n";
        }
      }
      if sym.hasQuery {
        calls := calls + [QueryCall(ModuleApi)];
        if env.tai.query(ModuleApi) != Success {
          return Ret(-1), "%% Failed to load API for module\n";
        }
        calls := calls + [QueryCall(NetworkIfApi)];
        if env.tai.query(NetworkIfApi) != Success {
          return Ret(-1), "%% Failed to load API for Network IF\n";
        }
        calls := calls + [QueryCall(HostIfApi)];
        if env.tai.query(HostIfApi) != Success {
          return Ret(-1), "%% Failed to load API for Host IF\n";
        }
      }
      return Ret(0), "";
    }

    /** tai_command_logset: change one entry of the log-level table and tell the library. */
    method CommandLogset(args: seq<string>) returns (st: Ret, out: string)
      requires Valid()
      modifies this`calls, LogLevels()
      ensures Valid()
      ensures st == old(Expected(Logset, args))
      ensures ValidateLogset(args, api != null).LogReject? ==>
        out == ValidateLogset(args, api != null).msg && calls == old(calls) &&
        (api != null ==> api.logLevel[..] == old(api.logLevel[..]))
      ensures ValidateLogset(args, api != null).LogApply? ==>
        var c, l := ValidateLogset(args, api != null).category, ValidateLogset(args, api != null).level;
        && api != null
        && api.logLevel[..] == old(api.logLevel[..])[c.Index() := l]
        && calls == old(calls) + (if api.symbols.hasLogSet then [LogSetCall(c, l)] else [])
        && out == ""
      ensures LogsetEffect(args, out, old(Now()))
    {
      match ValidateLogset(args, api != null)
      case LogReject(msg) =>
        return Ret(-1), msg;
      case LogApply(c, l) =>
        api.logLevel[c.Index()] := l;
        if api.symbols.hasLogSet {
          calls := calls + [LogSetCall(c, l)];
        }
        return Ret(0), "";
    }

    /**
     * tai_command_set_netif_attr.  On every rejection no vendor call is made
     * and no module changes; looking up an unknown id adds a null entry.
     */
    method CommandSetNetifAttr(args: seq<string>) returns (st: Ret, out: string)
      requires Valid()
      modifies this`modules, this`calls
      ensures Valid()
      ensures st == old(Expected(SetNetifAttr, args))
      ensures LiveIds() == old(LiveIds())
      ensures !old(ValidateSetNetifAttr(args, api != null, LiveIds(), env.parse)).Apply? ==> calls == old(calls)
      ensures old(ValidateSetNetifAttr(args, api != null, LiveIds(), env.parse)).Reject? ==>
        modules == old(modules) && out == old(ValidateSetNetifAttr(args, api != null, LiveIds(), env.parse)).msg
      ensures old(ValidateSetNetifAttr(args, api != null, LiveIds(), env.parse)).UnknownModule? ==>
        var id := old(ValidateSetNetifAttr(args, api != null, LiveIds(), env.parse)).id;
        out == InvalidModuleId && modules == if id in old(modules) then old(modules) else old(modules)[id := null]
      ensures old(ValidateSetNetifAttr(args, api != null, LiveIds(), env.parse)).Throw? ==>
        modules == old(modules) && out == ""
      ensures old(ValidateSetNetifAttr(args, api != null, LiveIds(), env.parse)).Apply? ==>
        var verdict := old(ValidateSetNetifAttr(args, api != null, LiveIds(), env.parse));
        && modules == old(modules) && out == ""
        && |old(calls)| <= |calls| && calls[..|old(calls)|] == old(calls)
        && modules[verdict.id].WriteTrace(env.tai, verdict.attr, verdict.value, calls[|old(calls)|..], st == Ret(0))
      ensures SetNetifAttrEffect(args, st, out, old(Now()))
    {
      match ValidateSetNetifAttr(args, api != null, LiveIds(), env.parse)
      case Reject(msg) =>
        return Ret(-1), msg;
      case UnknownModule(id) =>
        if id !in modules {
          modules := modules[id := null];
        }
        return Ret(-1), InvalidModuleId;
      case Throw =>
        return Raised, "";
      case Apply(id, a, v) =>
        var m := modules[id];
        var ok, cs := m.SetNetifAttribute(env.tai, a, v);
        calls := calls + cs;
        assert calls[..|old(calls)|] == old(calls) && calls[|old(calls)|..] == cs;
        if !ok {
          return Raised, "";
        }
        return Ret(0), "";
    }

    /** tai_command_module_list: the registry in key order. */
    method CommandModuleList(args: seq<string>) returns (st: Ret, out: string)
      ensures |args| != 1 ==> st == Ret(-1) && out == ModuleListUsage
      ensures |args| == 1 ==> st == Ret(0) && ListsRegistry(out, location2moduleId)
      ensures ModuleListEffect(args, out, old(Now()))
    {
      if |args| != 1 {
        return Ret(-1), ModuleListUsage;
      }
      var keys;
      out, keys := ListRegistry(location2moduleId);
      st := Ret(0);
    }

    /** Run the handler that the command table gives for args[0]. */
    method Run(cmd: Command, args: seq<string>) returns (st: Ret, out: string)
      requires Valid()
      modifies this, LogLevels()
      ensures Valid()
      ensures st == old(Expected(cmd, args))
      ensures Effect(cmd, args, st, out, old(Now()))
      ensures cmd == Load && st == Ret(0) ==> fresh(api)
      ensures noOfMods == old(noOfMods) && queue == old(queue) && creations == old(creations)
      ensures location2moduleId == old(location2moduleId)
    {
      match cmd
      case Help => st, out := Ret(0), HelpText;
      case Quit => st, out := Ret(EndSession), "";
      case Load => st, out := CommandLoad(args);
      case Init => st, out := CommandInit(args);
      case Logset => st, out := CommandLogset(args);
      case SetNetifAttr => st, out := CommandSetNetifAttr(args);
      case ModuleList => st, out := CommandModuleList(args);
    }

    /** The return value of cmd_parse for a line split into args. */
    ghost function Outcome(args: seq<string>): Ret
      reads this`api, this`modules, this`location2moduleId
      requires Valid()
    {
      if args == [] || args[0] !in Cmd2Handler then Ret(0) else Expected(Cmd2Handler[args[0]], args)
    }

    /**
     * The body of cmd_parse after the line is read: split it, then run the
     * handler of the first token or report an unknown command; an empty
     * line does nothing.
     */
    method Dispatch(buf: string) returns (st: Ret, out: string)
      requires Valid()
      modifies this, LogLevels()
      ensures Valid()
      ensures st == old(Outcome(Tokens(buf)))
      ensures var args := Tokens(buf);
        args != [] && args[0] in Cmd2Handler ==> Effect(Cmd2Handler[args[0]], args, st, out, old(Now()))
      ensures Tokens(buf) == [] ==> out == "" && unchanged(this) && unchanged(old(LogLevels()))
      ensures var args := Tokens(buf);
        args != [] && args[0] !in Cmd2Handler ==>
          out == UnknownCommand(args[0]) && unchanged(this) && unchanged(old(LogLevels()))
      ensures noOfMods == old(noOfMods) && queue == old(queue) && creations == old(creations)
      ensures location2moduleId == old(location2moduleId)
    {
      var args := MakeArgs(buf);
      st, out := Ret(0), "";
      if |args| != 0 {
        if args[0] in Cmd2Handler {
          st, out := Run(Cmd2Handler[args[0]], args);
        } else {
          out := UnknownCommand(args[0]);
        }
      }
    }

    /** The handler's output within cmd_parse's: without the prompt, which follows a handler that returned. */
    static function Unprompted(st: Ret, out: string): string
    {
      if st.Ret? && |out| >= |Prompt| then out[..|out| - |Prompt|] else out
    }

    /**
     * cmd_parse: read one line, drop a trailing CR, split it, dispatch the
     * first token, and write the prompt unless the handler threw.
     * `rest` is the input after the line.
     */
    method CmdParse(input: string) returns (st: Ret, out: string, rest: string)
      requires Valid()
      modifies this, LogLevels()
      ensures Valid()
      ensures GetLine(input).EndOfStream? ==>
        st == Ret(EndSession) && out == "" && unchanged(this) && unchanged(old(LogLevels()))
      ensures GetLine(input).Line? ==>
        && rest == GetLine(input).rest
        && st == old(Outcome(Tokens(StripCR(GetLine(input).text))))
      ensures GetLine(input).Line? && st.Ret? ==> |out| >= |Prompt| && out[|out| - |Prompt|..] == Prompt
      ensures GetLine(input).Line? ==>
        var args := Tokens(StripCR(GetLine(input).text));
        && (args == [] ==> out == Prompt && unchanged(this) && unchanged(old(LogLevels())))
        && (args != [] && args[0] !in Cmd2Handler ==>
              out == UnknownCommand(args[0]) + Prompt && unchanged(this) && unchanged(old(LogLevels())))
        && (args != [] && args[0] in Cmd2Handler ==>
              Effect(Cmd2Handler[args[0]], args, st, Unprompted(st, out), old(Now())))
      ensures noOfMods == old(noOfMods) && queue == old(queue) && creations == old(creations)
      ensures location2moduleId == old(location2moduleId)
    {
      var line := GetLine(input);
      if line.EndOfStream? {
        return Ret(EndSession), "", "";
      }
      rest := line.rest;
      var buf := StripCR(line.text);
      st, out := Dispatch(buf);
      if st.Ret? {
        out := out + Prompt;
      }
    }
  }

  /** quit and exit end the session whatever follows them, and cmd_parse passes -10 on. */
  lemma QuitEndsSession(sh: TaiShell, args: seq<string>)
    requires sh.Valid()
    requires args != [] && (args[0] == "quit" || args[0] == "exit")
    ensures sh.Outcome(args) == Ret(EndSession)
  {
    DispatchTable();
  }
}
