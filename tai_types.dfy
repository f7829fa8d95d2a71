/**
 * Values shared by the TAI shell model: object handles, the network-interface
 * attributes the shell can set, API categories and log levels, and the
 * boundary to the vendor library.
 *
 * The vendor library is foreign code.  Each of its entry points is a field of
 * `Vendor` holding a total function from the call's arguments to the status
 * (and, where the call creates something, the handle) it reports.  The
 * module-creation entry point also receives the number of creations made so
 * far, so that a vendor may answer a repeated location differently.
 */
module TaiTypes {

  datatype Option<+T> = None | Some(value: T)

  /** tai_object_id_t: an opaque 64-bit handle assigned by the vendor. */
  type Handle = nat

  /** TAI_STATUS_SUCCESS; every other status is a failure. */
  const Success: int := 0

  /** The return value that ends a client session (quit, exit, end of stream). */
  const EndSession: int := -10

  /** TAI_API_MAX: the number of entries of the log-level table. */
  const ApiMax: nat := 4

  /** tai_api_t values that the shell names. */
  datatype ApiCategory = Unspecified | ModuleApi | HostIfApi | NetworkIfApi
  {
    /** The numeric tai_api_t value, which indexes the log-level table. */
    function Index(): (i: nat)
      ensures i < ApiMax
    {
      match this
      case Unspecified => 0
      case ModuleApi => 1
      case HostIfApi => 2
      case NetworkIfApi => 3
    }
  }

  /** tai_log_level_t */
  datatype LogLevel = Debug | Info | Notice | Warn | Error | Critical

  /** The network-interface attributes that set_netif_attr accepts. */
  datatype AttrId =
    | TxEnable
    | TxGridSpacing
    | TxChannel
    | OutputPower
    | TxFineTuneLaserFreq
    | ModulationFormat
    | DifferentialEncoding

  /** TAI_NETWORK_INTERFACE_TX_GRID_SPACING_* */
  datatype GridSpacing = Grid100GHz | Grid50GHz | Grid33GHz | Grid25GHz | Grid12_5GHz | Grid6_25GHz

  /** TAI_NETWORK_INTERFACE_MODULATION_FORMAT_* */
  datatype Modulation =
    | Bpsk | DpBpsk | Qpsk | DpQpsk
    | Qam8 | DpQam8 | Qam16 | DpQam16
    | Qam32 | DpQam32 | Qam64 | DpQam64

  /** The member of tai_attribute_value_t that each attribute uses. */
  datatype AttrValue =
    | BoolData(b: bool)
    | GridValue(grid: GridSpacing)
    | U16(u16: nat)
    | Flt(flt: real)
    | U64(u64: nat)
    | ModulationValue(modulation: Modulation)

  /** A status together with the handle a creating call wrote. */
  datatype Reply = Reply(status: int, handle: Handle)

  /** The answer of get_module_attributes for the two interface counts. */
  datatype CountsReply = CountsReply(status: int, numHostifs: nat, numNetifs: nat)

  /** The vendor entry points the shell calls, after tai_api_query. */
  datatype Vendor = Vendor(
    createModule: (string, nat) -> Reply,
    getModuleCounts: Handle -> CountsReply,
    createHostif: (Handle, nat) -> Reply,
    createNetif: (Handle, nat) -> Reply,
    setNetifAttr: (Handle, AttrId, AttrValue) -> int,
    initialize: int,
    query: ApiCategory -> int
  )

  /** Which of the optional symbols dlsym found in the loaded library. */
  datatype Symbols = Symbols(hasInitialize: bool, hasQuery: bool, hasLogSet: bool)

  /** The outcome of dlopen for a library path. */
  datatype LoadResult = Loaded(symbols: Symbols) | LoadFailed(reason: string)

  /**
   * std::stoull, std::stoi and std::stof as partial functions: None is the
   * case in which the conversion throws.
   */
  datatype Parsers = Parsers(
    stoull: string -> Option<nat>,
    stoi: string -> Option<int>,
    stof: string -> Option<real>
  )

  /** Everything outside the shell that its commands consult. */
  datatype Env = Env(tai: Vendor, dlopen: string -> LoadResult, parse: Parsers)

  /** A stateful vendor call made by a command, in the order it is made. */
  datatype VendorCall =
    | LogSetCall(category: ApiCategory, level: LogLevel)
    | InitializeCall
    | QueryCall(category: ApiCategory)
    | SetNetifAttrCall(netif: Handle, attr: AttrId, value: AttrValue)

  /**
   * What a command handler gives back to its caller: a return value, or a C++
   * exception that nothing catches, so that the process terminates.
   */
  datatype Ret = Ret(code: int) | Raised
}
