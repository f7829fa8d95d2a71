/**
 * The location registry: what draining the presence queue records, the key
 * order in which module_list prints it, and the lookup of a module id by
 * location.
 */
module Registry {
  import opened TaiTypes
  import Hardware

  /** A queued presence notification. */
  datatype Presence = Presence(present: bool, location: string)

  // ----- what the drain does, as functions of the queue -----

  /** The locations of the present entries of q, in queue order. */
  function PresentLocations(q: seq<Presence>): seq<string>
  {
    if q == [] then []
    else PresentLocations(q[..|q| - 1]) + (if q[|q| - 1].present then [q[|q| - 1].location] else [])
  }

  /** A location is among the present locations exactly when some present entry carries it. */
  lemma {:induction false} PresentLocationsIn(q: seq<Presence>, loc: string)
    ensures loc in PresentLocations(q) <==> exists i :: 0 <= i < |q| && q[i].present && q[i].location == loc
    decreases |q|
  {
    if q != [] {
      var init := q[..|q| - 1];
      PresentLocationsIn(init, loc);
      if exists i :: 0 <= i < |init| && init[i].present && init[i].location == loc {
        var i :| 0 <= i < |init| && init[i].present && init[i].location == loc;
        assert q[i] == init[i];
      }
      if exists i :: 0 <= i < |q| && q[i].present && q[i].location == loc {
        var i :| 0 <= i < |q| && q[i].present && q[i].location == loc;
        if i < |init| {
          assert init[i] == q[i];
        }
      }
    }
  }

  /** The handles create_module returns for those locations; creation k is call number n + k. */
  function CreatedHandles(v: Vendor, q: seq<Presence>, n: nat): (hs: seq<Handle>)
    ensures |hs| == |PresentLocations(q)|
  {
    var locs := PresentLocations(q);
    seq(|locs|, k requires 0 <= k < |locs| => v.createModule(locs[k], n + k).handle)
  }

  /** Every create_module call of the drain succeeds and every module constructor completes. */
  predicate DrainSucceeds(v: Vendor, q: seq<Presence>, n: nat)
  {
    var locs := PresentLocations(q);
    forall k :: 0 <= k < |locs| ==>
      v.createModule(locs[k], n + k).status == Success &&
      Hardware.Builds(v, v.createModule(locs[k], n + k).handle)
  }

  /**
   * The registry after inserting locs[k] -> hs[k] in order with
   * std::map::insert, which keeps the entry of a location already present.
   */
  function Inserted(reg: map<string, Handle>, locs: seq<string>, hs: seq<Handle>): map<string, Handle>
    requires |locs| == |hs|
  {
    if locs == [] then reg
    else
      var r := Inserted(reg, locs[..|locs| - 1], hs[..|hs| - 1]);
      if locs[|locs| - 1] in r then r else r[locs[|locs| - 1] := hs[|hs| - 1]]
  }

  /** The registry after a successful drain of q. */
  function RegistryAfter(v: Vendor, q: seq<Presence>, reg: map<string, Handle>, n: nat): map<string, Handle>
  {
    Inserted(reg, PresentLocations(q), CreatedHandles(v, q, n))
  }

  /** Popping entry k extends the drain of q[..k] by that one entry. */
  lemma DrainStep(v: Vendor, q: seq<Presence>, k: nat, n: nat)
    requires k < |q|
    ensures PresentLocations(q[..k + 1]) ==
      PresentLocations(q[..k]) + (if q[k].present then [q[k].location] else [])
    ensures var r := v.createModule(q[k].location, n + |PresentLocations(q[..k])|);
      && CreatedHandles(v, q[..k + 1], n) ==
           CreatedHandles(v, q[..k], n) + (if q[k].present then [r.handle] else [])
      && (DrainSucceeds(v, q[..k + 1], n) <==>
           DrainSucceeds(v, q[..k], n) && (q[k].present ==> r.status == Success && Hardware.Builds(v, r.handle)))
  {
    assert q[..k + 1][..k] == q[..k];
    assert q[..k + 1][k] == q[k];
    var p, p' := PresentLocations(q[..k]), PresentLocations(q[..k + 1]);
    var tail := if q[k].present then [q[k].location] else [];
    assert p' == p + tail;
    var r := v.createModule(q[k].location, n + |p|);
    var hs, hs' := CreatedHandles(v, q[..k], n), CreatedHandles(v, q[..k + 1], n);
    var htail := if q[k].present then [r.handle] else [];
    assert forall kk :: 0 <= kk < |p| ==> p'[kk] == p[kk];
    assert hs' == hs + htail by {
      forall kk | 0 <= kk < |hs'| ensures hs'[kk] == (hs + htail)[kk] {
        if kk < |p| { assert p'[kk] == p[kk]; }
      }
    }
    if q[k].present {
      assert p'[|p|] == q[k].location;
    }
  }

  /** Popping entry k inserts its location, unless it is absent or already registered. */
  lemma RegistryStep(v: Vendor, q: seq<Presence>, k: nat, reg: map<string, Handle>, n: nat)
    requires k < |q|
    ensures var before := RegistryAfter(v, q[..k], reg, n);
      var r := v.createModule(q[k].location, n + |PresentLocations(q[..k])|);
      RegistryAfter(v, q[..k + 1], reg, n) ==
        if q[k].present && q[k].location !in before then before[q[k].location := r.handle] else before
  {
    DrainStep(v, q, k, n);
    var locs, hs := PresentLocations(q[..k + 1]), CreatedHandles(v, q[..k + 1], n);
    if q[k].present {
      assert locs[..|locs| - 1] == PresentLocations(q[..k]);
      assert hs[..|hs| - 1] == CreatedHandles(v, q[..k], n);
      assert locs[|locs| - 1] == q[k].location;
      assert hs[|hs| - 1] == v.createModule(q[k].location, n + |PresentLocations(q[..k])|).handle;
    } else {
      assert locs == PresentLocations(q[..k]);
      assert hs == CreatedHandles(v, q[..k], n);
    }
  }

  /** A drain of q[..k] that succeeds goes on succeeding when entry k completes. */
  lemma DrainExtends(v: Vendor, q: seq<Presence>, k: nat, n: nat)
    requires k < |q| && DrainSucceeds(v, q[..k], n)
    requires q[k].present ==>
      var r := v.createModule(q[k].location, n + |PresentLocations(q[..k])|);
      r.status == Success && Hardware.Builds(v, r.handle)
    ensures DrainSucceeds(v, q[..k + 1], n)
  {
    DrainStep(v, q, k, n);
  }

  /** The present locations of a prefix of q are a prefix of those of q. */
  lemma {:induction false} PresentLocationsPrefix(q: seq<Presence>, j: nat)
    requires j <= |q|
    ensures |PresentLocations(q[..j])| <= |PresentLocations(q)|
    ensures PresentLocations(q[..j]) == PresentLocations(q)[..|PresentLocations(q[..j])|]
    decreases |q|
  {
    if j == |q| {
      assert q[..j] == q;
    } else {
      var init := q[..|q| - 1];
      PresentLocationsPrefix(init, j);
      assert init[..j] == q[..j];
    }
  }

  /** A drain that succeeds on q succeeds on every prefix of q. */
  lemma DrainPrefix(v: Vendor, q: seq<Presence>, j: nat, n: nat)
    requires j <= |q|
    ensures DrainSucceeds(v, q, n) ==> DrainSucceeds(v, q[..j], n)
  {
    PresentLocationsPrefix(q, j);
    var short, long := PresentLocations(q[..j]), PresentLocations(q);
    assert forall k :: 0 <= k < |short| ==> short[k] == long[k];
  }

  /** How the drain of main ends. */
  datatype DrainStatus =
    | Drained                    // the queue is empty
    | CreateFailed(status: int)  // create_module failed: main returns 1
    | ConstructorThrew           // the module constructor threw: the process terminates

  /**
   * How the drain ends from creation k on: the first create_module that
   * fails, or the first constructor that throws, or every one completes.
   */
  function FirstFailure(v: Vendor, locs: seq<string>, n: nat, k: nat): (st: DrainStatus)
    requires k <= |locs|
    ensures st.CreateFailed? ==> st.status != Success
    decreases |locs| - k
  {
    if k == |locs| then Drained
    else
      var r := v.createModule(locs[k], n + k);
      if r.status != Success then CreateFailed(r.status)
      else if !Hardware.Builds(v, r.handle) then ConstructorThrew
      else FirstFailure(v, locs, n, k + 1)
  }

  /** How the drain of q ends when create_module has been called n times before. */
  function DrainOutcome(v: Vendor, q: seq<Presence>, n: nat): DrainStatus
  {
    FirstFailure(v, PresentLocations(q), n, 0)
  }

  /** Creations that all complete up to k do not change how the drain ends. */
  lemma {:induction false} FirstFailureSkip(v: Vendor, locs: seq<string>, n: nat, j: nat, k: nat)
    requires j <= k <= |locs|
    requires forall i :: j <= i < k ==>
      v.createModule(locs[i], n + i).status == Success && Hardware.Builds(v, v.createModule(locs[i], n + i).handle)
    ensures FirstFailure(v, locs, n, j) == FirstFailure(v, locs, n, k)
    decreases k - j
  {
    if j < k {
      FirstFailureSkip(v, locs, n, j + 1, k);
    }
  }

  /** The drain ends with Drained only when every creation from k on completes. */
  lemma {:induction false} FirstFailureDrained(v: Vendor, locs: seq<string>, n: nat, k: nat)
    requires k <= |locs| && FirstFailure(v, locs, n, k) == Drained
    ensures forall i :: k <= i < |locs| ==>
      v.createModule(locs[i], n + i).status == Success && Hardware.Builds(v, v.createModule(locs[i], n + i).handle)
    decreases |locs| - k
  {
    if k < |locs| {
      FirstFailureDrained(v, locs, n, k + 1);
    }
  }

  /** The drain ends with Drained exactly when it succeeds. */
  lemma DrainOutcomeDrained(v: Vendor, q: seq<Presence>, n: nat)
    ensures DrainOutcome(v, q, n) == Drained <==> DrainSucceeds(v, q, n)
  {
    var locs := PresentLocations(q);
    if DrainSucceeds(v, q, n) {
      FirstFailureSkip(v, locs, n, 0, |locs|);
    }
    if DrainOutcome(v, q, n) == Drained {
      FirstFailureDrained(v, locs, n, 0);
    }
  }

  /**
   * When every creation of q[..k] completes and entry k is a present one
   * whose creation does not, the drain of q ends at entry k.
   */
  lemma DrainOutcomeAt(v: Vendor, q: seq<Presence>, k: nat, n: nat)
    requires k < |q| && q[k].present && DrainSucceeds(v, q[..k], n)
    ensures var r := v.createModule(q[k].location, n + |PresentLocations(q[..k])|);
      r.status != Success || !Hardware.Builds(v, r.handle) ==>
        && !DrainSucceeds(v, q, n)
        && DrainOutcome(v, q, n) == if r.status != Success then CreateFailed(r.status) else ConstructorThrew
  {
    DrainStep(v, q, k, n);
    DrainPrefix(v, q, k + 1, n);
    PresentLocationsPrefix(q, k);
    PresentLocationsPrefix(q, k + 1);
    var short, locs := PresentLocations(q[..k]), PresentLocations(q);
    var m := |short|;
    assert PresentLocations(q[..k + 1]) == short + [q[k].location];
    assert locs[m] == q[k].location;
    assert forall i :: 0 <= i < m ==> locs[i] == short[i];
    FirstFailureSkip(v, locs, n, 0, m);
  }

  /** Inserting adds exactly the inserted locations. */
  lemma {:induction false} InsertedKeys(reg: map<string, Handle>, locs: seq<string>, hs: seq<Handle>, loc: string)
    requires |locs| == |hs|
    ensures loc in Inserted(reg, locs, hs) <==> loc in reg || loc in locs
    decreases |locs|
  {
    if locs != [] {
      var init := locs[..|locs| - 1];
      InsertedKeys(reg, init, hs[..|hs| - 1], loc);
      assert locs == init + [locs[|locs| - 1]];
    }
  }

  /** A location already registered keeps its handle. */
  lemma {:induction false} InsertedKeeps(reg: map<string, Handle>, locs: seq<string>, hs: seq<Handle>, loc: string)
    requires |locs| == |hs|
    requires loc in reg
    ensures loc in Inserted(reg, locs, hs) && Inserted(reg, locs, hs)[loc] == reg[loc]
    decreases |locs|
  {
    if locs != [] {
      InsertedKeeps(reg, locs[..|locs| - 1], hs[..|hs| - 1], loc);
    }
  }

  /** A new location gets the handle of its first occurrence. */
  lemma {:induction false} InsertedFirst(reg: map<string, Handle>, locs: seq<string>, hs: seq<Handle>, k: nat)
    requires |locs| == |hs|
    requires k < |locs| && locs[k] !in reg && locs[k] !in locs[..k]
    ensures locs[k] in Inserted(reg, locs, hs) && Inserted(reg, locs, hs)[locs[k]] == hs[k]
    decreases |locs|
  {
    var last := |locs| - 1;
    var init, hinit := locs[..last], hs[..last];
    var r := Inserted(reg, init, hinit);
    if k < last {
      assert init[..k] == locs[..k];
      InsertedFirst(reg, init, hinit, k);
    } else {
      InsertedKeys(reg, init, hinit, locs[k]);
      assert locs[k] !in init by { assert init == locs[..k]; }
      assert locs[k] !in r;
    }
  }

  /** Pairwise different new locations add one entry each. */
  lemma {:induction false} InsertedSize(reg: map<string, Handle>, locs: seq<string>, hs: seq<Handle>)
    requires |locs| == |hs|
    requires forall i, j :: 0 <= i < j < |locs| ==> locs[i] != locs[j]
    requires forall i :: 0 <= i < |locs| ==> locs[i] !in reg
    ensures |Inserted(reg, locs, hs)| == |reg| + |locs|
    decreases |locs|
  {
    if locs != [] {
      var last := |locs| - 1;
      var init, hinit := locs[..last], hs[..last];
      InsertedSize(reg, init, hinit);
      InsertedKeys(reg, init, hinit, locs[last]);
      assert locs[last] !in init by {
        forall i | 0 <= i < |init| ensures init[i] != locs[last] { assert init[i] == locs[i]; }
      }
    }
  }

  /**
   * After draining N present entries with pairwise different locations that
   * were not registered, the registry holds N more entries, each resolving to
   * the handle created for it.
   */
  lemma DrainDistinctLocations(v: Vendor, q: seq<Presence>, reg: map<string, Handle>, n: nat)
    requires forall i, j :: 0 <= i < j < |PresentLocations(q)| ==> PresentLocations(q)[i] != PresentLocations(q)[j]
    requires forall i :: 0 <= i < |PresentLocations(q)| ==> PresentLocations(q)[i] !in reg
    ensures |RegistryAfter(v, q, reg, n)| == |reg| + |PresentLocations(q)|
    ensures forall k :: 0 <= k < |PresentLocations(q)| ==>
      GetModuleId(RegistryAfter(v, q, reg, n), PresentLocations(q)[k]) == (0, Some(CreatedHandles(v, q, n)[k]))
  {
    var locs, hs := PresentLocations(q), CreatedHandles(v, q, n);
    InsertedSize(reg, locs, hs);
    forall k | 0 <= k < |locs|
      ensures GetModuleId(RegistryAfter(v, q, reg, n), locs[k]) == (0, Some(hs[k]))
    {
      assert locs[k] !in locs[..k] by {
        forall i | 0 <= i < k ensures locs[..k][i] != locs[k] { }
      }
      InsertedFirst(reg, locs, hs, k);
    }
  }

  /** After a drain every location of a present entry is registered, and the old entries stay. */
  lemma DrainRegistersPresent(v: Vendor, q: seq<Presence>, reg: map<string, Handle>, n: nat, i: nat)
    requires i < |q| && q[i].present
    ensures GetModuleId(RegistryAfter(v, q, reg, n), q[i].location).0 == 0
    ensures q[i].location in reg ==> RegistryAfter(v, q, reg, n)[q[i].location] == reg[q[i].location]
  {
    PresentLocationsIn(q, q[i].location);
    InsertedKeys(reg, PresentLocations(q), CreatedHandles(v, q, n), q[i].location);
    if q[i].location in reg {
      InsertedKeeps(reg, PresentLocations(q), CreatedHandles(v, q, n), q[i].location);
    }
  }

  // ----- tai_shell_get_module_id -----

  /** 0 and the id when the location is registered, -1 and no id otherwise. */
  function GetModuleId(reg: map<string, Handle>, loc: string): (r: (int, Option<Handle>))
    ensures r.0 == 0 <==> loc in reg
    ensures r.0 == 0 ==> r.1 == Some(reg[loc])
    ensures r.0 != 0 ==> r == (-1, None)
  {
    if loc in reg then (0, Some(reg[loc])) else (-1, None)
  }

  // ----- the order of std::map<std::string, ...> -----

  /** std::string's operator<: lexicographic comparison by character code. */
  predicate Less(a: string, b: string)
  {
    if a == [] then b != []
    else b != [] && (a[0] < b[0] || (a[0] == b[0] && Less(a[1..], b[1..])))
  }

  lemma {:induction false} LessTransitive(a: string, b: string, c: string)
    requires Less(a, b) && Less(b, c)
    ensures Less(a, c)
    decreases |a|
  {
    if a != [] && a[0] == b[0] && b[0] == c[0] {
      LessTransitive(a[1..], b[1..], c[1..]);
    }
  }

  lemma {:induction false} LessTotal(a: string, b: string)
    requires a != b
    ensures Less(a, b) || Less(b, a)
    decreases |a|
  {
    if a != [] && b != [] && a[0] == b[0] {
      assert a[1..] != b[1..];
      LessTotal(a[1..], b[1..]);
    }
  }

  /** A non-empty finite set of strings has a least element. */
  lemma {:induction false} LeastExists(s: set<string>)
    requires s != {}
    ensures exists m :: m in s && forall x :: x in s && x != m ==> Less(m, x)
    decreases |s|
  {
    var x :| x in s;
    var r := s - {x};
    if r == {} {
      assert s == {x};
    } else {
      LeastExists(r);
      var m :| m in r && forall y :: y in r && y != m ==> Less(m, y);
      LessTotal(m, x);
      if Less(m, x) {
        assert forall y :: y in s && y != m ==> Less(m, y);
      } else {
        forall y | y in s && y != x
          ensures Less(x, y)
        {
          if y != m {
            LessTransitive(x, m, y);
          }
        }
      }
    }
  }

  /** Strictly increasing in std::map key order. */
  predicate StrictlySorted(keys: seq<string>)
  {
    forall i, j :: 0 <= i < j < |keys| ==> Less(keys[i], keys[j])
  }

  // ----- module_list output -----

  function DigitChar(d: nat): char
    requires d < 10
  {
    "0123456789"[d]
  }

  /** The decimal text std::ostream writes for an unsigned integer. */
  function Decimal(n: nat): string
    decreases n
  {
    if n < 10 then [DigitChar(n)] else Decimal(n / 10) + [DigitChar(n % 10)]
  }

  /** The number a string of decimal digits stands for. */
  function DigitsValue(s: string): nat
  {
    if s == [] then 0
    else
      var c := s[|s| - 1];
      var d := if '0' <= c <= '9' then (c as int - '0' as int) else 0;
      DigitsValue(s[..|s| - 1]) * 10 + d
  }

  /** Reading back the decimal text of a handle gives the handle. */
  lemma {:induction false} DecimalRoundTrip(n: nat)
    ensures DigitsValue(Decimal(n)) == n
    ensures Decimal(n) != [] && forall k :: 0 <= k < |Decimal(n)| ==> '0' <= Decimal(n)[k] <= '9'
    decreases n
  {
    var s := Decimal(n);
    if n >= 10 {
      DecimalRoundTrip(n / 10);
      assert s[..|s| - 1] == Decimal(n / 10);
    }
  }

  const ModuleListHeader: string := "Module List\n"
  const ModuleListUsage: string := "Usage: module_list\n"

  /** One output line of module_list. */
  function EntryLine(loc: string, id: Handle): string
  {
    "loacation: " + loc + "  module ID: " + Decimal(id) + "\n"
  }

  /** The lines for the given keys of reg, in the given order. */
  function Lines(keys: seq<string>, reg: map<string, Handle>): string
    requires forall k :: 0 <= k < |keys| ==> keys[k] in reg
  {
    if keys == [] then ""
    else Lines(keys[..|keys| - 1], reg) + EntryLine(keys[|keys| - 1], reg[keys[|keys| - 1]])
  }

  /** Concatenation regroups: the printed header and lines extended by one more line. */
  lemma AppendAssoc(a: string, b: string, c: string)
    ensures (a + b) + c == a + (b + c)
  {
  }

  /** Appending the least remaining key keeps the iteration sorted and ahead of what remains. */
  lemma ListStep(keys: seq<string>, remaining: set<string>, loc: string)
    requires StrictlySorted(keys)
    requires forall i, y :: 0 <= i < |keys| && y in remaining ==> Less(keys[i], y)
    requires loc in remaining && forall y :: y in remaining && y != loc ==> Less(loc, y)
    ensures StrictlySorted(keys + [loc])
    ensures forall i, y :: 0 <= i < |keys + [loc]| && y in remaining - {loc} ==> Less((keys + [loc])[i], y)
  {
    var keys' := keys + [loc];
    forall i, j | 0 <= i < j < |keys'| ensures Less(keys'[i], keys'[j]) {
      if j < |keys| {
        assert keys'[i] == keys[i] && keys'[j] == keys[j];
      } else {
        assert keys'[i] == keys[i] && keys'[j] == loc;
      }
    }
    forall i, y | 0 <= i < |keys'| && y in remaining - {loc} ensures Less(keys'[i], y) {
      if i < |keys| {
        assert keys'[i] == keys[i];
      }
    }
  }

  /** out is the header followed by one line per registered location, in key order. */
  ghost predicate ListsRegistry(out: string, reg: map<string, Handle>)
  {
    exists keys: seq<string> ::
      && StrictlySorted(keys)
      && |keys| == |reg|
      && (forall loc :: loc in keys <==> loc in reg)
      && (forall k :: 0 <= k < |keys| ==> keys[k] in reg)
      && out == ModuleListHeader + Lines(keys, reg)
  }

  /**
   * The loop of module_list: iterate the registry in key order.  `keys` is
   * the order of iteration: every registered location exactly once, sorted.
   */
  method ListRegistry(reg: map<string, Handle>) returns (out: string, keys: seq<string>)
    ensures StrictlySorted(keys)
    ensures |keys| == |reg|
    ensures forall loc :: loc in keys <==> loc in reg
    ensures out == ModuleListHeader + Lines(keys, reg)
    ensures ListsRegistry(out, reg)
  {
    out := ModuleListHeader;
    keys := [];
    var remaining := reg.Keys;
    while remaining != {}
      invariant remaining <= reg.Keys
      invariant StrictlySorted(keys)
      invariant forall loc :: loc in keys <==> loc in reg && loc !in remaining
      invariant |keys| + |remaining| == |reg|
      invariant forall i, y :: 0 <= i < |keys| && y in remaining ==> Less(keys[i], y)
      invariant out == ModuleListHeader + Lines(keys, reg)
      decreases |remaining|
    {
      LeastExists(remaining);
      var loc :| loc in remaining && forall y :: y in remaining && y != loc ==> Less(loc, y);
      var keys' := keys + [loc];
      assert keys'[..|keys'| - 1] == keys;
      assert forall k :: 0 <= k < |keys'| ==> keys'[k] in reg;
      ListStep(keys, remaining, loc);
      var line := EntryLine(loc, reg[loc]);
      assert Lines(keys', reg) == Lines(keys, reg) + line;
      AppendAssoc(ModuleListHeader, Lines(keys, reg), line);
      out := out + line;
      keys := keys';
      remaining := remaining - {loc};
    }
    assert forall k :: 0 <= k < |keys| ==> keys[k] in reg;
  }
}
