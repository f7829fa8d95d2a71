/**
 * The command table of the shell and the closed vocabularies its commands
 * accept, with the decision chains of set_netif_attr and logset as pure
 * functions from the argument list to a verdict.
 */
module Vocabulary {
  import opened TaiTypes

  /** The handlers of the command table. */
  datatype Command = Help | Load | Init | Quit | Logset | SetNetifAttr | ModuleList

  /** cmd2handler */
  const Cmd2Handler: map<string, Command> := map[
    "?" := Help,
    "help" := Help,
    "load" := Load,
    "init" := Init,
    "quit" := Quit,
    "exit" := Quit,
    "logset" := Logset,
    "set_netif_attr" := SetNetifAttr,
    "module_list" := ModuleList
  ]

  /** The table knows nine names; two pairs of them share a handler. */
  lemma DispatchTable()
    ensures Cmd2Handler.Keys ==
      {"?", "help", "load", "init", "quit", "exit", "logset", "set_netif_attr", "module_list"}
    ensures Cmd2Handler["?"] == Cmd2Handler["help"] == Help
    ensures Cmd2Handler["quit"] == Cmd2Handler["exit"] == Quit
  {
  }

  // ----- attribute names -----

  function AttrName(a: AttrId): string
  {
    match a
    case TxEnable => "tx-enable"
    case TxGridSpacing => "tx-grid"
    case TxChannel => "tx-channel"
    case OutputPower => "output-power"
    case TxFineTuneLaserFreq => "tx-laser-freq"
    case ModulationFormat => "modulation"
    case DifferentialEncoding => "differential-encoding"
  }

  const AttrNames: set<string> :=
    {"tx-enable", "tx-grid", "tx-channel", "output-power", "tx-laser-freq", "modulation",
     "differential-encoding"}

  /** The attribute-name chain of set_netif_attr. */
  function AttrOfName(name: string): (r: Option<AttrId>)
    ensures r.Some? <==> name in AttrNames
    ensures r.Some? ==> AttrName(r.value) == name
    ensures r.None? ==> forall a :: AttrName(a) != name
  {
    if name == "tx-enable" then Some(TxEnable)
    else if name == "tx-grid" then Some(TxGridSpacing)
    else if name == "tx-channel" then Some(TxChannel)
    else if name == "output-power" then Some(OutputPower)
    else if name == "tx-laser-freq" then Some(TxFineTuneLaserFreq)
    else if name == "modulation" then Some(ModulationFormat)
    else if name == "differential-encoding" then Some(DifferentialEncoding)
    else None
  }

  // ----- attribute values -----

  function BoolName(b: bool): string
  {
    if b then "true" else "false"
  }

  function BoolOfName(text: string): (r: Option<bool>)
    ensures r.Some? <==> text in {"true", "false"}
    ensures r.Some? ==> BoolName(r.value) == text
  {
    if text == "true" then Some(true)
    else if text == "false" then Some(false)
    else None
  }

  function GridName(g: GridSpacing): string
  {
    match g
    case Grid100GHz => "100"
    case Grid50GHz => "50"
    case Grid33GHz => "33"
    case Grid25GHz => "25"
    case Grid12_5GHz => "12.5"
    case Grid6_25GHz => "6.25"
  }

  const GridNames: set<string> := {"100", "50", "33", "25", "12.5", "6.25"}

  function GridOfName(text: string): (r: Option<GridSpacing>)
    ensures r.Some? <==> text in GridNames
    ensures r.Some? ==> GridName(r.value) == text
    ensures r.None? ==> forall g :: GridName(g) != text
  {
    if text == "100" then Some(Grid100GHz)
    else if text == "50" then Some(Grid50GHz)
    else if text == "33" then Some(Grid33GHz)
    else if text == "25" then Some(Grid25GHz)
    else if text == "12.5" then Some(Grid12_5GHz)
    else if text == "6.25" then Some(Grid6_25GHz)
    else None
  }

  function ModulationName(m: Modulation): string
  {
    match m
    case Bpsk => "bpsk"
    case DpBpsk => "dp-bpsk"
    case Qpsk => "qpsk"
    case DpQpsk => "dp-qpsk"
    case Qam8 => "8qam"
    case DpQam8 => "dp-8qam"
    case Qam16 => "16qam"
    case DpQam16 => "dp-16qam"
    case Qam32 => "32qam"
    case DpQam32 => "dp-32qam"
    case Qam64 => "64qam"
    case DpQam64 => "dp-64qam"
  }

  const ModulationNames: set<string> :=
    {"bpsk", "dp-bpsk", "qpsk", "dp-qpsk", "8qam", "dp-8qam", "16qam", "dp-16qam",
     "32qam", "dp-32qam", "64qam", "dp-64qam"}

  function ModulationOfName(text: string): (r: Option<Modulation>)
    ensures r.Some? <==> text in ModulationNames
    ensures r.Some? ==> ModulationName(r.value) == text
    ensures r.None? ==> forall m :: ModulationName(m) != text
  {
    if text == "bpsk" then Some(Bpsk)
    else if text == "dp-bpsk" then Some(DpBpsk)
    else if text == "qpsk" then Some(Qpsk)
    else if text == "dp-qpsk" then Some(DpQpsk)
    else if text == "8qam" then Some(Qam8)
    else if text == "dp-8qam" then Some(DpQam8)
    else if text == "16qam" then Some(Qam16)
    else if text == "dp-16qam" then Some(DpQam16)
    else if text == "32qam" then Some(Qam32)
    else if text == "dp-32qam" then Some(DpQam32)
    else if text == "64qam" then Some(Qam64)
    else if text == "dp-64qam" then Some(DpQam64)
    else None
  }

  /** The value classes of the attributes that are converted by a number parser. */
  predicate Numeric(a: AttrId)
  {
    a == TxChannel || a == OutputPower || a == TxFineTuneLaserFreq
  }

  /** tx-channel is stored in the u16 member: the int that std::stoi returns is taken modulo 2^16. */
  function ToU16(v: int): (r: nat)
    ensures r < 0x1_0000
    ensures (r - v) % 0x1_0000 == 0
  {
    v % 0x1_0000
  }

  /**
   * The value texts that set_netif_attr accepts for each attribute name, stated
   * over the names on their own.
   */
  predicate ValueAccepted(name: string, text: string, p: Parsers)
  {
    if name == "tx-enable" || name == "differential-encoding" then text in {"true", "false"}
    else if name == "tx-grid" then text in GridNames
    else if name == "modulation" then text in ModulationNames
    else if name == "tx-channel" then p.stoi(text).Some?
    else if name == "output-power" then p.stof(text).Some?
    else if name == "tx-laser-freq" then p.stoull(text).Some?
    else false
  }

  /** v is the attribute value that text stands for when it is given for attribute a. */
  predicate Denotes(a: AttrId, text: string, p: Parsers, v: AttrValue)
  {
    match a
    case TxEnable => v.BoolData? && BoolName(v.b) == text
    case DifferentialEncoding => v.BoolData? && BoolName(v.b) == text
    case TxGridSpacing => v.GridValue? && GridName(v.grid) == text
    case ModulationFormat => v.ModulationValue? && ModulationName(v.modulation) == text
    case TxChannel => v.U16? && p.stoi(text).Some? && v.u16 == ToU16(p.stoi(text).value)
    case OutputPower => v.Flt? && p.stof(text) == Some(v.flt)
    case TxFineTuneLaserFreq => v.U64? && p.stoull(text) == Some(v.u64)
  }

  datatype ValueVerdict = Value(value: AttrValue) | Invalid(msg: string) | Thrown

  const BoolMsg: string := "%% Invalid argument (true or false)\n"
  const GridMsg: string := "%% Invalid argument (100, 50, 33, 25, 12.5 or 6.25\n"
  const ModulationMsg: string :=
    "%% Invalid argument (bpsk, dp-bpsk, qpsk, dp-qpsk, 8qam, dp-8qam, 16qam, dp-16qam, 32qam, dp-32qam, 64qam or dp-64qam)\n"

  /** The value chain of set_netif_attr for an attribute already recognised. */
  function ParseValue(a: AttrId, text: string, p: Parsers): (r: ValueVerdict)
    ensures r.Value? <==> ValueAccepted(AttrName(a), text, p)
    ensures r.Value? ==> Denotes(a, text, p, r.value)
    ensures r.Thrown? ==> Numeric(a)
    ensures r.Invalid? ==> !Numeric(a)
  {
    match a
    case TxEnable | DifferentialEncoding =>
      (match BoolOfName(text)
       case Some(b) => Value(BoolData(b))
       case None => Invalid(BoolMsg))
    case TxGridSpacing =>
      (match GridOfName(text)
       case Some(g) => Value(GridValue(g))
       case None => Invalid(GridMsg))
    case TxChannel =>
      (match p.stoi(text)
       case Some(v) => Value(U16(ToU16(v)))
       case None => Thrown)
    case OutputPower =>
      (match p.stof(text)
       case Some(f) => Value(Flt(f))
       case None => Thrown)
    case TxFineTuneLaserFreq =>
      (match p.stoull(text)
       case Some(n) => Value(U64(n))
       case None => Thrown)
    case ModulationFormat =>
      (match ModulationOfName(text)
       case Some(m) => Value(ModulationValue(m))
       case None => Invalid(ModulationMsg))
  }

  // ----- set_netif_attr -----

  const SetNetifUsage: string :=
    "Usage: set_netif_attr <module-id> <attr-id> <attr-val>\n" +
    "    <module-id>: integer.\n" +
    "    <attr-id> : tx-enable, tx-grid, tx-channel, output-power, tx-laser-freq, modulation or differential-encoding.\n" +
    "    <attr-val> :  tx-enable: true or false\n" +
    "                  tx-grid: 100, 50, 33, 25, 12.5 or 6.25\n" +
    "                  tx-channel: integer\n" +
    "                  output-power: float\n" +
    "                  tx-laser-freq: integer\n" +
    "                  modulation: bpsk, dp-bpsk, qpsk, dp-qpsk, 8qam, dp-8qam, 16qam, dp-16qam, 32qam, dp-32qam, 64qam or dp-64qam\n" +
    "                  differential-encoding: true or false\n"
  const InvalidParams: string := "%% Invalid parameters\n"
  const NeedLoad: string := "%% Need to load TAI library at first\n"
  const InvalidModuleId: string := "%% Invalid module ID\n"
  const InvalidAttr: string :=
    "Invalid attribute (tx-enable, tx-grid, tx-channel, output-power, tx-laser-freq, modulation or differential-encoding)\n"

  datatype NetifVerdict =
    | Reject(msg: string)                                // -1, nothing touched
    | UnknownModule(id: Handle)                          // -1, after modules[id] inserted a null entry
    | Throw                                              // a number conversion threw
    | Apply(id: Handle, attr: AttrId, value: AttrValue)  // set on every network interface of module id

  /**
   * The checks of set_netif_attr, in the source's order, given whether a
   * library is loaded and the ids that have a constructed module.
   */
  function ValidateSetNetifAttr(args: seq<string>, loaded: bool, live: set<Handle>, p: Parsers): (r: NetifVerdict)
    ensures |args| == 1 ==> r == Reject(SetNetifUsage)
    ensures |args| != 1 && |args| != 4 ==> r == Reject(InvalidParams)
    ensures |args| == 4 && !loaded ==> r == Reject(NeedLoad)
    ensures r.Apply? <==>
      && |args| == 4 && loaded
      && p.stoull(args[1]).Some? && p.stoull(args[1]).value in live
      && args[2] in AttrNames && ValueAccepted(args[2], args[3], p)
    ensures r.Apply? ==>
      p.stoull(args[1]) == Some(r.id) && AttrName(r.attr) == args[2] && Denotes(r.attr, args[3], p, r.value)
    ensures r.UnknownModule? <==>
      |args| == 4 && loaded && p.stoull(args[1]).Some? && p.stoull(args[1]).value !in live
    ensures r.UnknownModule? ==> p.stoull(args[1]) == Some(r.id)
    ensures r.Throw? <==>
      && |args| == 4 && loaded
      && (|| p.stoull(args[1]).None?
          || (&& p.stoull(args[1]).value in live && args[2] in AttrNames
              && Numeric(AttrOfName(args[2]).value) && !ValueAccepted(args[2], args[3], p)))
    ensures (|args| == 4 && loaded && p.stoull(args[1]).Some? && p.stoull(args[1]).value in live &&
             args[2] !in AttrNames) ==> r == Reject(InvalidAttr)
  {
    if |args| == 1 then Reject(SetNetifUsage)
    else if |args| != 4 then Reject(InvalidParams)
    else if !loaded then Reject(NeedLoad)
    else
      match p.stoull(args[1])
      case None => Throw
      case Some(id) =>
        if id !in live then UnknownModule(id)
        else
          match AttrOfName(args[2])
          case None => Reject(InvalidAttr)
          case Some(a) =>
            match ParseValue(a, args[3], p)
            case Value(v) => Apply(id, a, v)
            case Invalid(msg) => Reject(msg)
            case Thrown => Throw
  }

  /** A boolean attribute given a word other than true or false is rejected with the boolean message. */
  lemma BoolOutsideRejected(args: seq<string>, live: set<Handle>, p: Parsers)
    requires |args| == 4 && args[2] in {"tx-enable", "differential-encoding"} && args[3] !in {"true", "false"}
    requires p.stoull(args[1]).Some? && p.stoull(args[1]).value in live
    ensures ValidateSetNetifAttr(args, true, live, p) == Reject(BoolMsg)
  {
  }

  /** A modulation outside the twelve is rejected with the modulation message. */
  lemma ModulationOutsideRejected(args: seq<string>, live: set<Handle>, p: Parsers)
    requires |args| == 4 && args[2] == "modulation" && args[3] !in ModulationNames
    requires p.stoull(args[1]).Some? && p.stoull(args[1]).value in live
    ensures ValidateSetNetifAttr(args, true, live, p) == Reject(ModulationMsg)
  {
  }

  /** A grid spacing outside the six is rejected with the grid message. */
  lemma GridOutsideRejected(args: seq<string>, live: set<Handle>, p: Parsers)
    requires |args| == 4 && args[2] == "tx-grid" && args[3] !in GridNames
    requires p.stoull(args[1]).Some? && p.stoull(args[1]).value in live
    ensures ValidateSetNetifAttr(args, true, live, p) == Reject(GridMsg)
  {
  }

  // ----- logset -----

  function CategoryName(c: ApiCategory): string
  {
    match c
    case Unspecified => "unspecified"
    case ModuleApi => "module"
    case HostIfApi => "hostif"
    case NetworkIfApi => "networkif"
  }

  const CategoryNames: set<string> := {"unspecified", "module", "hostif", "networkif"}

  function CategoryOfName(name: string): (r: Option<ApiCategory>)
    ensures r.Some? <==> name in CategoryNames
    ensures r.Some? ==> CategoryName(r.value) == name
    ensures r.None? ==> forall c :: CategoryName(c) != name
  {
    if name == "unspecified" then Some(Unspecified)
    else if name == "module" then Some(ModuleApi)
    else if name == "hostif" then Some(HostIfApi)
    else if name == "networkif" then Some(NetworkIfApi)
    else None
  }

  function LevelName(l: LogLevel): string
  {
    match l
    case Debug => "debug"
    case Info => "info"
    case Notice => "notice"
    case Warn => "warn"
    case Error => "error"
    case Critical => "critical"
  }

  const LevelNames: set<string> := {"debug", "info", "notice", "warn", "error", "critical"}

  function LevelOfName(name: string): (r: Option<LogLevel>)
    ensures r.Some? <==> name in LevelNames
    ensures r.Some? ==> LevelName(r.value) == name
    ensures r.None? ==> forall l :: LevelName(l) != name
  {
    if name == "debug" then Some(Debug)
    else if name == "info" then Some(Info)
    else if name == "notice" then Some(Notice)
    else if name == "warn" then Some(Warn)
    else if name == "error" then Some(Error)
    else if name == "critical" then Some(Critical)
    else None
  }

  const InvalidCategory: string := "%% Invalid argument (unspecified, hostif or networkif)\n"

  /** The message for a rejected log level, naming the token it was given. */
  function InvalidLevelText(word: string): string
  {
    "Invalid log-level(" + word + ") was specified!!\n"
  }

  /** Different rejected words give different messages. */
  lemma InvalidLevelTextInjective(w1: string, w2: string)
    requires w1 != w2
    ensures InvalidLevelText(w1) != InvalidLevelText(w2)
  {
    var prefix := "Invalid log-level(";
    var m1, m2 := InvalidLevelText(w1), InvalidLevelText(w2);
    if |w1| == |w2| {
      assert m1[|prefix|..|prefix| + |w1|] == w1;
      assert m2[|prefix|..|prefix| + |w2|] == w2;
    } else {
      assert |m1| != |m2|;
    }
  }

  /** The invalid-level message as the source writes it: it names args[1], the category. */
  function InvalidLevelMessageAsWritten(args: seq<string>): string
    requires |args| == 3
  {
    InvalidLevelText(args[1])
  }

  /** The invalid-level message with the rejected level itself, args[2]. */
  function InvalidLevelMessage(args: seq<string>): string
    requires |args| == 3
  {
    InvalidLevelText(args[2])
  }

  /**
   * As written, logset rejects two different levels for one category with
   * the same message, and that message names the category.
   */
  lemma AsWrittenLevelMessageHidesLevel()
    ensures ValidateLogset(["logset", "module", "verbose"], true) ==
            ValidateLogset(["logset", "module", "loud"], true) ==
            LogReject(InvalidLevelText("module"))
  {
    assert "module" in CategoryNames;
    assert "verbose" !in LevelNames && "loud" !in LevelNames;
  }

  /** With the rejected level in the message, different rejected levels give different messages. */
  lemma InvalidLevelMessageNamesLevel(a1: seq<string>, a2: seq<string>)
    requires |a1| == 3 && |a2| == 3 && a1[2] != a2[2]
    ensures InvalidLevelMessage(a1) != InvalidLevelMessage(a2)
  {
    InvalidLevelTextInjective(a1[2], a2[2]);
  }

  datatype LogsetVerdict = LogReject(msg: string) | LogApply(category: ApiCategory, level: LogLevel)

  /** The checks of logset, in the source's order. */
  function ValidateLogset(args: seq<string>, loaded: bool): (r: LogsetVerdict)
    ensures r.LogApply? <==> |args| == 3 && loaded && args[1] in CategoryNames && args[2] in LevelNames
    ensures r.LogApply? ==> CategoryName(r.category) == args[1] && LevelName(r.level) == args[2]
    ensures |args| != 3 ==> r == LogReject(InvalidParams)
    ensures |args| == 3 && !loaded ==> r == LogReject(NeedLoad)
    ensures |args| == 3 && loaded && args[1] !in CategoryNames ==> r == LogReject(InvalidCategory)
    ensures |args| == 3 && loaded && args[1] in CategoryNames && args[2] !in LevelNames ==>
      r == LogReject(InvalidLevelMessageAsWritten(args))
  {
    if |args| != 3 then LogReject(InvalidParams)
    else if !loaded then LogReject(NeedLoad)
    else
      match CategoryOfName(args[1])
      case None => LogReject(InvalidCategory)
      case Some(c) =>
        match LevelOfName(args[2])
        case None => LogReject(InvalidLevelMessageAsWritten(args))
        case Some(l) => LogApply(c, l)
  }
}
