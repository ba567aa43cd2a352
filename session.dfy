/** One `hashcat` object of the C binding: its typed attributes (four
    string objects naming the inputs and the engine's user options), the
    `execute` call that validates the inputs for the attack mode, builds the
    engine's argv and starts the session thread, and object creation, which
    clears every registered signal name in the process-wide table. */
module Session {
  import opened Common
  import opened Events
  import opened Registry


  /** A value handed to a setter as the C API sees it; `Deleted` is the NULL
      value of `del obj.attr` and never an item of a list or tuple. A
      Python 2 `int` is a C long and `PyInt_Check` accepts it and a `bool`
      (a subclass of `int`); any integer may be a `long`, which it refuses. */
  datatype PyArg =
    | Deleted
    | PyNone
    | PyStr(s: string)
    | PyInt(i: CLong)
    | PyLong(n: int)
    | PyBool(b: bool)
    | PyList(items: seq<PyArg>)
    | PyTuple(items: seq<PyArg>)
    | PyOther

  /** What a C `int` keeps of a `long`: the low 32 bits as two's complement,
      the only value in the `int` range congruent to it modulo 2^32. */
  function Int32(i: int): (r: int)
    ensures -0x8000_0000 <= r < 0x8000_0000
    ensures (r - i) % 0x1_0000_0000 == 0
    ensures -0x8000_0000 <= i < 0x8000_0000 ==> r == i
  {
    (i + 0x8000_0000) % 0x1_0000_0000 - 0x8000_0000
  }

  datatype PyError =
    | RuntimeError(message: string)
    | NotImplementedError(message: string)
    | TypeError(message: string)

  /** How a getset attribute is checked, stored and read back. */
  datatype Kind =
    | ObjectKind   // hash, dict1, dict2, mask: the string object itself
    | StringKind   // user option kept as `char *`
    | IntKind      // `PyInt_AsLong`, read back with "i"
    | BoolKind     // stored as 1 / 0
    | CharKind     // separator: the first character

  /** What an attribute holds. `SStr(None)` is a NULL pointer. */
  datatype Stored = SStr(s: Option<string>) | SInt(i: CLong) | SBool(b: bool) | SChar(c: char)

  const SessionFields: set<string> := {"hash", "dict1", "dict2", "mask"}

  const IntOptions: set<string> := {
      "attack_mode", "bitmap_max", "bitmap_min", "debug_mode", "gpu_temp_abort",
      "gpu_temp_retain", "hash_mode", "increment_max", "increment_min", "kernel_accel",
      "kernel_loops", "limit", "markov_threshold", "nvidia_spin_damp", "opencl_vector_width",
      "outfile_check_timer", "outfile_format", "remove_timer", "restore_timer", "rp_gen",
      "rp_gen_func_max", "rp_gen_func_min", "rp_gen_seed", "runtime", "scrypt_tmto",
      "segment_size", "skip", "status_timer", "veracrypt_pim", "weak_hash_threshold",
      "workload_profile"
  }

  const BoolOptions: set<string> := {
      "benchmark", "force", "gpu_temp_disable", "hex_charset", "hex_salt", "hex_wordlist",
      "increment", "keep_guessing", "keyspace", "left", "logfile_disable", "loopback",
      "machine_readable", "markov_classic", "markov_disable", "opencl_info",
      "outfile_autohex", "potfile_disable", "powertune_enable", "quiet", "remove", "restore",
      "restore_disable", "show", "speed_only", "status", "usage", "username", "version"
  }

  const StringOptions: set<string> := {
      "cpu_affinity", "custom_charset_1", "custom_charset_2", "custom_charset_3",
      "custom_charset_4", "debug_file", "induction_dir", "markov_hcstat",
      "opencl_device_types", "opencl_devices", "opencl_platforms", "outfile",
      "outfile_check_dir", "potfile_path", "restore_file_path", "rule_buf_l", "rule_buf_r",
      "session", "truecrypt_keyfiles", "veracrypt_keyfiles"
  }

  /** The getset table: the kind of each attribute name it lists. */
  function KindOf(name: string): Option<Kind>
  {
    if name in SessionFields then Some(ObjectKind)
    else if name == "separator" then Some(CharKind)
    else if name in IntOptions then Some(IntKind)
    else if name in BoolOptions then Some(BoolKind)
    else if name in StringOptions then Some(StringKind)
    else None
  }

  predicate Fits(k: Kind, v: Stored)
  {
    match k
    case ObjectKind => v.SStr?
    case StringKind => v.SStr?
    case IntKind => v.SInt?
    case BoolKind => v.SBool?
    case CharKind => v.SChar?
  }

  /** The user options: exactly the getset names other than the four object
      fields, each holding a value of its kind. */
  ghost predicate WellKinded(options: map<string, Stored>)
  {
    (forall n :: n in options <==> KindOf(n).Some? && KindOf(n) != Some(ObjectKind))
    && (forall n :: n in options ==> Fits(KindOf(n).value, options[n]))
  }

  /** The type check of each setter: `PyString_Check`, `PyInt_Check` (which
      a bool passes) or `PyBool_Check`. */
  predicate Accepts(k: Kind, arg: PyArg)
  {
    match k
    case IntKind => arg.PyInt? || arg.PyBool?
    case BoolKind => arg.PyBool?
    case _ => arg.PyStr?
  }

  function TypeName(k: Kind): string
  {
    match k
    case IntKind => "int"
    case BoolKind => "bool"
    case _ => "string"
  }

  function MustBe(name: string, typeName: string): string
  {
    "The " + name + " attribute value must be a " + typeName
  }

  /** A setter: refuse deletion, check the type, then convert. */
  function Coerce(name: string, k: Kind, arg: PyArg): (r: Result<Stored, PyError>)
    ensures r.Ok? <==> Accepts(k, arg)
    ensures r.Ok? ==> Fits(k, r.value)
    ensures arg.Deleted? ==> r == Err(TypeError("Cannot delete " + name + " attribute"))
    ensures !arg.Deleted? && !Accepts(k, arg) ==>
      r == Err(TypeError(MustBe(name, TypeName(k))))
  {
    if arg.Deleted? then Err(TypeError("Cannot delete " + name + " attribute"))
    else
      match k
      case ObjectKind =>
        if arg.PyStr? then Ok(SStr(Some(arg.s))) else Err(TypeError(MustBe(name, "string")))
      case StringKind =>
        if arg.PyStr? then Ok(SStr(Some(arg.s))) else Err(TypeError(MustBe(name, "string")))
      case CharKind =>
        if arg.PyStr? then Ok(SChar(if |arg.s| == 0 then '\0' else arg.s[0]))
        else Err(TypeError(MustBe(name, "string")))
      case IntKind =>
        if arg.PyInt? then Ok(SInt(arg.i))
        else if arg.PyBool? then Ok(SInt(if arg.b then 1 else 0))
        else Err(TypeError(MustBe(name, "int")))
      case BoolKind =>
        if arg.PyBool? then Ok(SBool(arg.b)) else Err(TypeError(MustBe(name, "bool")))
  }

  /** A getter: NULL reads as None, a `char *` option is rebuilt with "s"
      (so it stops at a NUL), an int option with "i" (a C `int`, so only the
      low 32 bits come back), the separator with "c". */
  function Render(k: Kind, v: Stored): PyArg
  {
    match v
    case SStr(None) => PyNone
    case SStr(Some(s)) => if k == ObjectKind then PyStr(s) else PyStr(CStr(s))
    case SInt(i) => PyInt(Int32(i))
    case SBool(b) => PyBool(b)
    case SChar(c) => PyStr([c])
  }

  /** Reading back what a setter accepted: object fields and bools return
      the value itself; `char *` options return it up to the first NUL (all
      of it when it has none); int options return True/False as 1/0 and an
      int as its low 32 bits, which is the int itself within the C `int`
      range; the separator keeps one character, and the empty string reads
      back as NUL. */
  lemma SetThenGet(name: string, k: Kind, arg: PyArg)
    requires Accepts(k, arg)
    ensures var got := Render(k, Coerce(name, k, arg).value);
      (k == ObjectKind ==> got == arg)
      && (k == StringKind ==> got == PyStr(CStr(arg.s)) && ('\0' !in arg.s ==> got == arg))
      && (k == IntKind && arg.PyBool? ==> got == PyInt(if arg.b then 1 else 0))
      && (k == IntKind && arg.PyInt? ==>
            got == PyInt(Int32(arg.i)) && (-0x8000_0000 <= arg.i < 0x8000_0000 ==> got == arg))
      && (k == BoolKind ==> got == arg)
      && (k == CharKind ==> got == PyStr(if |arg.s| == 0 then "\0" else arg.s[..1]))
  {
    if k == StringKind && '\0' !in arg.s {
      CStrWithoutNul(arg.s);
    }
  }

  /** `gpu_temp_abort = 2**31` reads back as -2**31. */
  lemma IntReadBackWraps()
    ensures Render(IntKind, Coerce("gpu_temp_abort", IntKind, PyInt(0x8000_0000)).value) == PyInt(-0x8000_0000)
  {
  }

  /** `attack_mode = 2**64` is a Python `long`, which the setter refuses. */
  lemma LongRefused()
    ensures Coerce("attack_mode", IntKind, PyLong(0x1_0000_0000_0000_0000)) == Err(TypeError(MustBe("attack_mode", "int")))
  {
  }

  /** The four inputs of `execute`; None is a NULL field. */
  datatype Sources = Sources(hash: Option<string>, dict1: Option<string>, dict2: Option<string>, mask: Option<string>)

  datatype Input = HashInput | Dict1Input | Dict2Input | MaskInput

  function Pick(src: Sources, f: Input): Option<string>
  {
    match f
    case HashInput => src.hash
    case Dict1Input => src.dict1
    case Dict2Input => src.dict2
    case MaskInput => src.mask
  }

  /** Reference table: the positional inputs each supported attack mode
      passes to the engine, in order. */
  function Layout(mode: int): Option<seq<Input>>
  {
    if mode == 0 then Some([HashInput, Dict1Input])
    else if mode == 1 then Some([HashInput, Dict1Input, Dict2Input])
    else if mode == 3 then Some([HashInput, MaskInput])
    else if mode == 6 then Some([HashInput, Dict1Input, MaskInput])
    else if mode == 7 then Some([HashInput, MaskInput, Dict1Input])
    else None
  }

  const HashNotSet: string := "Hash source not set"
  const UndefinedDictionary: string := "Undefined dictionary"
  const UndefinedMask: string := "Undefined mask"
  const InvalidAttackMode: string := "Invalid Attack Mode"

  /** The checks and argv of `execute`, in the order the source makes them. */
  function PlanArgv(src: Sources, mode: int): Result<seq<string>, PyError>
  {
    if src.hash.None? then Err(RuntimeError(HashNotSet))
    else if mode == 0 then
      if src.dict1.None? then Err(RuntimeError(UndefinedDictionary))
      else Ok([src.hash.value, src.dict1.value])
    else if mode == 1 then
      if src.dict1.None? || src.dict2.None? then Err(RuntimeError(UndefinedDictionary))
      else Ok([src.hash.value, src.dict1.value, src.dict2.value])
    else if mode == 3 then
      if src.mask.None? then Err(RuntimeError(UndefinedMask))
      else Ok([src.hash.value, src.mask.value])
    else if mode == 6 then
      if src.dict1.None? then Err(RuntimeError(UndefinedDictionary))
      else if src.mask.None? then Err(RuntimeError(UndefinedMask))
      else Ok([src.hash.value, src.dict1.value, src.mask.value])
    else if mode == 7 then
      if src.dict1.None? then Err(RuntimeError(UndefinedDictionary))
      else if src.mask.None? then Err(RuntimeError(UndefinedMask))
      else Ok([src.hash.value, src.mask.value, src.dict1.value])
    else Err(NotImplementedError(InvalidAttackMode))
  }

  /** `execute` succeeds exactly when the mode is supported and every input
      its layout names is set, and then argv is those inputs in layout order
      (so the hash source always comes first). */
  lemma PlanFollowsLayout(src: Sources, mode: int)
    ensures PlanArgv(src, mode).Ok? <==>
      Layout(mode).Some? && forall f :: f in Layout(mode).value ==> Pick(src, f).Some?
    ensures PlanArgv(src, mode).Ok? ==>
      var layout := Layout(mode).value;
      |PlanArgv(src, mode).value| == |layout|
      && forall i :: 0 <= i < |layout| ==> Pick(src, layout[i]) == Some(PlanArgv(src, mode).value[i])
  {
    if Layout(mode).Some? {
      var layout := Layout(mode).value;
      if !(forall f :: f in layout ==> Pick(src, f).Some?) {
        var f :| f in layout && Pick(src, f).None?;
        assert PlanArgv(src, mode).Err?;
      } else {
        assert Pick(src, layout[0]).Some? && Pick(src, layout[1]).Some?;
        if |layout| == 3 {
          assert Pick(src, layout[2]).Some?;
        }
      }
    }
  }

  /** Which error `execute` reports: a missing hash source wins over
      everything, even an unsupported mode; then an unsupported mode; in
      the hybrid modes a missing dictionary is reported before a missing
      mask; the mask modes report only the mask. */
  lemma PlanErrors(src: Sources, mode: int)
    ensures src.hash.None? ==> PlanArgv(src, mode) == Err(RuntimeError(HashNotSet))
    ensures src.hash.Some? && Layout(mode).None? ==> PlanArgv(src, mode) == Err(NotImplementedError(InvalidAttackMode))
    ensures src.hash.Some? && mode in {0, 1, 6, 7} && src.dict1.None? ==>
      PlanArgv(src, mode) == Err(RuntimeError(UndefinedDictionary))
    ensures src.hash.Some? && mode == 1 && src.dict2.None? ==>
      PlanArgv(src, mode) == Err(RuntimeError(UndefinedDictionary))
    ensures src.hash.Some? && src.dict1.Some? && mode in {3, 6, 7} && src.mask.None? ==>
      PlanArgv(src, mode) == Err(RuntimeError(UndefinedMask))
    ensures src.hash.Some? && mode == 3 && src.mask.None? ==>
      PlanArgv(src, mode) == Err(RuntimeError(UndefinedMask))
  {
  }

  /** The items the copy loop walks: `PyList_Size` answers -1 for anything
      but a list, so nothing else is copied. */
  function RuleItems(rules: PyArg): seq<PyArg>
  {
    if rules.PyList? then rules.items else []
  }

  /** What `PyString_AsString` hands the engine for one item: the C view of
      a string; NULL, with a TypeError set, for anything else. */
  function RuleFile(item: PyArg): Option<string>
  {
    if item.PyStr? then Some(CStr(item.s)) else None
  }

  /** `rp_files[i] = PyString_AsString(items[i])` for each item, over
      whatever the engine's array already held. */
  function Overlay(base: map<nat, Option<string>>, items: seq<PyArg>): map<nat, Option<string>>
  {
    if |items| == 0 then base
    else Overlay(base, items[..|items| - 1])[|items| - 1 := RuleFile(items[|items| - 1])]
  }

  /** After the copy the first |items| entries are the items' C strings in
      order (NULL for an item that is not a string), and every later entry
      is what the array held before. */
  lemma {:induction false} OverlayLookup(base: map<nat, Option<string>>, items: seq<PyArg>)
    ensures forall j :: 0 <= j < |items| ==> j in Overlay(base, items) && Overlay(base, items)[j] == RuleFile(items[j])
    ensures forall j: nat :: j >= |items| ==>
      (j in Overlay(base, items) <==> j in base) && (j in base ==> Overlay(base, items)[j] == base[j])
  {
    if |items| > 0 {
      var n := |items| - 1;
      OverlayLookup(base, items[..n]);
    }
  }

  /** A tuple of rules files copies nothing, and a list copies each string
      whole when it has no NUL, and NULL for an item that is not a string. */
  lemma RulesCopyCases(base: map<nat, Option<string>>, rules: PyArg)
    ensures rules.PyTuple? ==> Overlay(base, RuleItems(rules)) == base
    ensures rules.PyList? ==> forall j :: 0 <= j < |rules.items| ==>
      j in Overlay(base, rules.items)
      && (rules.items[j].PyStr? && '\0' !in rules.items[j].s ==> Overlay(base, rules.items)[j] == Some(rules.items[j].s))
      && (!rules.items[j].PyStr? ==> Overlay(base, rules.items)[j] == None)
  {
    if rules.PyList? {
      OverlayLookup(base, rules.items);
      forall j | 0 <= j < |rules.items| && rules.items[j].PyStr? && '\0' !in rules.items[j].s
        ensures CStr(rules.items[j].s) == rules.items[j].s
      {
        CStrWithoutNul(rules.items[j].s);
      }
    }
  }

  /** What `execute` hands back: None with the error indicator set, or the
      return code of `pthread_create` for the session thread. */
  datatype ExecOutcome = ErrorIndicatorSet(error: PyError) | Started(rtn: int)

  /** Install and shared folders passed to `hashcat_session_init`. */
  const InstallFolder: string := "/usr/bin"
  const SharedFolder: string := "/usr/local/share/hashcat"

  /** The NULL-terminated `char *` array built from the input strings. */
  function ArgvBuffer(argv: seq<string>): (buf: seq<Option<string>>)
    ensures |buf| == |argv| + 1 && buf[|argv|] == None
    ensures forall i :: 0 <= i < |argv| ==> buf[i] == Some(CStr(argv[i]))
  {
    seq(|argv|, i requires 0 <= i < |argv| => Some(CStr(argv[i]))) + [None]
  }

  /** The engine finds argc at the only NULL of the array, and each entry
      is a NUL-free prefix of its input, the whole input when that holds no
      NUL. */
  lemma ArgvBufferReadsBack(argv: seq<string>)
    ensures forall i :: 0 <= i < |ArgvBuffer(argv)| ==> (ArgvBuffer(argv)[i].None? <==> i == |argv|)
    ensures forall i :: 0 <= i < |argv| ==>
      '\0' !in ArgvBuffer(argv)[i].value && argv[i][..|ArgvBuffer(argv)[i].value|] == ArgvBuffer(argv)[i].value
    ensures forall i :: 0 <= i < |argv| && '\0' !in argv[i] ==> ArgvBuffer(argv)[i] == Some(argv[i])
  {
    forall i | 0 <= i < |argv| && '\0' !in argv[i]
      ensures CStr(argv[i]) == argv[i]
    {
      CStrWithoutNul(argv[i]);
    }
  }

  /** Python strings for C strings, in order. */
  function Strs(names: seq<string>): (r: seq<PyArg>)
    ensures |r| == |names| && forall i :: 0 <= i < |names| ==> r[i] == PyStr(names[i])
  {
    seq(|names|, i requires 0 <= i < |names| => PyStr(names[i]))
  }

  /** The `event_types` tuple `newhashcatObject` builds from `event_strs`. */
  const EventTypesTuple: PyArg := PyTuple(Strs(EventStrs))

  class HashcatSession {
    const id: PyRef
    var hash: Option<string>
    var mask: Option<string>
    var dict1: Option<string>
    var dict2: Option<string>
    /** The engine's user options, by attribute name. */
    var options: map<string, Stored>
    /** The `rules` member (`self->rp_files`), meant to be a list of rule
        file names; `Deleted` when NULL. */
    var rules: PyArg
    var hcArgc: nat
    /** `user_options->hc_argv`, NULL-terminated. */
    var hcArgv: seq<Option<string>>
    /** `user_options->rp_files`, by index; None is a NULL entry. */
    var rpFiles: map<nat, Option<string>>
    var rcInit: int
    /** The `event_types` member. */
    var eventTypes: PyArg
    /** How often `hashcat_session_init` has been called. */
    ghost var initCalls: nat

    ghost predicate Valid()
      reads this
    {
      WellKinded(options)
    }

    function Inputs(): Sources
      reads this
    {
      Sources(hash, dict1, dict2, mask)
    }

    /** The mode the switch of `execute` sees: the low 32 bits of the long
        stored into `user_options->attack_mode`. */
    function AttackMode(): int
      reads this
      requires Valid()
    {
      assert KindOf("attack_mode") == Some(IntKind);
      Int32(options["attack_mode"].i)
    }

    /** Everything but the inputs and the options: the two object members,
        the engine's argv and rules files, and the record of its calls. */
    ghost function Engine(): (PyArg, PyArg, nat, seq<Option<string>>, map<nat, Option<string>>, int, nat)
      reads this
    {
      (rules, eventTypes, hcArgc, hcArgv, rpFiles, rcInit, initCalls)
    }

    /** The value behind a getset attribute. */
    function Slot(name: string): Stored
      reads this
      requires Valid() && KindOf(name).Some?
    {
      if name == "hash" then SStr(hash)
      else if name == "dict1" then SStr(dict1)
      else if name == "dict2" then SStr(dict2)
      else if name == "mask" then SStr(mask)
      else options[name]
    }

    /** A getter. */
    function GetAttribute(name: string): PyArg
      reads this
      requires Valid() && KindOf(name).Some?
    {
      Render(KindOf(name).value, Slot(name))
    }

    /** A fresh object: no inputs, no rules, argc 0, the engine's default
        options, and the advertised event names. */
    constructor (id: PyRef, engineDefaults: map<string, Stored>)
      requires WellKinded(engineDefaults)
      ensures Valid()
      ensures this.id == id && Inputs() == Sources(None, None, None, None)
      ensures options == engineDefaults && rules == PyList([]) && hcArgc == 0
      ensures eventTypes == EventTypesTuple && initCalls == 0
    {
      this.id := id;
      hash, mask, dict1, dict2 := None, None, None, None;
      options := engineDefaults;
      rules := PyList([]);
      hcArgc := 0;
      hcArgv := [];
      rpFiles := map[];
      rcInit := 0;
      eventTypes := EventTypesTuple;
      initCalls := 0;
    }

    /** `h.rules = v` or `del h.rules`: a `T_OBJECT` member takes any object,
        and deleting it stores NULL. */
    method SetRules(v: PyArg)
      modifies this
      ensures rules == v
      ensures Inputs() == old(Inputs()) && options == old(options) && eventTypes == old(eventTypes)
      ensures hcArgc == old(hcArgc) && hcArgv == old(hcArgv) && rpFiles == old(rpFiles)
      ensures rcInit == old(rcInit) && initCalls == old(initCalls)
    {
      rules := v;
    }

    /** `h.event_types = v` or `del h.event_types`, the same kind of member. */
    method SetEventTypes(v: PyArg)
      modifies this
      ensures eventTypes == v
      ensures Inputs() == old(Inputs()) && options == old(options) && rules == old(rules)
      ensures hcArgc == old(hcArgc) && hcArgv == old(hcArgv) && rpFiles == old(rpFiles)
      ensures rcInit == old(rcInit) && initCalls == old(initCalls)
    {
      eventTypes := v;
    }

    /** A setter: on a type error nothing changes; otherwise exactly the
        named attribute takes the converted value. */
    method SetAttribute(name: string, arg: PyArg) returns (r: Result<(), PyError>)
      requires Valid() && KindOf(name).Some?
      modifies this
      ensures Valid()
      ensures var c := Coerce(name, KindOf(name).value, arg);
        (c.Err? ==> r == Err(c.error) && Inputs() == old(Inputs()) && options == old(options))
        && (c.Ok? ==> r.Ok? && Slot(name) == c.value)
      ensures forall n :: KindOf(n).Some? && n != name ==> Slot(n) == old(Slot(n))
      ensures Engine() == old(Engine())
    {
      var k := KindOf(name).value;
      var c := Coerce(name, k, arg);
      if c.Err? {
        return Err(c.error);
      }
      var v := c.value;
      if name == "hash" {
        hash := v.s;
      } else if name == "dict1" {
        dict1 := v.s;
      } else if name == "dict2" {
        dict2 := v.s;
      } else if name == "mask" {
        mask := v.s;
      } else {
        options := options[name := v];
      }
      r := Ok(());
    }

    /** `execute()`: check the inputs the attack mode needs, store argc and
        the NULL-terminated argv, copy the rules in straight mode, initialise
        the engine session with the fixed folders, and start the session
        thread. The engine's answer is a parameter: `sessionInit` gives its
        return code for the two folders, `engineLog` its last log message,
        `threadRc` what `pthread_create` returns. A straight attack with the
        `rules` member deleted reads the NULL member, which the source does
        not survive. */
    method Execute(sessionInit: (string, string) -> int, engineLog: string, threadRc: int) returns (out: ExecOutcome)
      requires Valid()
      requires PlanArgv(Inputs(), AttackMode()).Ok? && AttackMode() == 0 ==> !rules.Deleted?
      modifies this
      ensures Valid()
      ensures Inputs() == old(Inputs()) && options == old(options) && rules == old(rules)
      ensures eventTypes == old(eventTypes)
      ensures var plan := PlanArgv(Inputs(), AttackMode());
        (plan.Err? ==>
           out == ErrorIndicatorSet(plan.error) && initCalls == old(initCalls)
           && hcArgc == old(hcArgc) && hcArgv == old(hcArgv) && rpFiles == old(rpFiles) && rcInit == old(rcInit))
        && (plan.Ok? ==>
           hcArgc == |plan.value| && hcArgv == ArgvBuffer(plan.value)
           && rpFiles == (if AttackMode() == 0 then Overlay(old(rpFiles), RuleItems(rules)) else old(rpFiles))
           && initCalls == old(initCalls) + 1 && rcInit == sessionInit(InstallFolder, SharedFolder)
           && out == (if rcInit != 0 then ErrorIndicatorSet(RuntimeError(engineLog)) else Started(threadRc)))
    {
      var plan := PlanArgv(Inputs(), AttackMode());
      if plan.Err? {
        return ErrorIndicatorSet(plan.error);
      }
      var argv := plan.value;
      hcArgc := |argv|;
      hcArgv := ArgvBuffer(argv);
      if AttackMode() == 0 {
        CopyRules();
      }
      rcInit := sessionInit(InstallFolder, SharedFolder);
      initCalls := initCalls + 1;
      if rcInit != 0 {
        return ErrorIndicatorSet(RuntimeError(engineLog));
      }
      out := Started(threadRc);
    }

    /** The straight-mode loop `rp_files[i] = PyString_AsString(rules[i])`
        for `i` below `PyList_Size(rules)`. */
    method CopyRules()
      requires !rules.Deleted?
      modifies this
      ensures rpFiles == Overlay(old(rpFiles), RuleItems(rules))
      ensures hash == old(hash) && mask == old(mask) && dict1 == old(dict1) && dict2 == old(dict2)
      ensures options == old(options) && rules == old(rules) && eventTypes == old(eventTypes)
      ensures hcArgc == old(hcArgc) && hcArgv == old(hcArgv) && rcInit == old(rcInit) && initCalls == old(initCalls)
    {
      var items := RuleItems(rules);
      var i := 0;
      while i < |items|
        invariant 0 <= i <= |items|
        invariant rpFiles == Overlay(old(rpFiles), items[..i])
        invariant hash == old(hash) && mask == old(mask) && dict1 == old(dict1) && dict2 == old(dict2)
        invariant options == old(options) && rules == old(rules) && eventTypes == old(eventTypes)
        invariant hcArgc == old(hcArgc) && hcArgv == old(hcArgv) && rcInit == old(rcInit) && initCalls == old(initCalls)
      {
        assert items[..i + 1][..i] == items[..i];
        var item := items[i];
        if item.PyStr? {
          rpFiles := rpFiles[i := Some(CStr(item.s))];
        } else {
          rpFiles := rpFiles[i := None];
        }
        i := i + 1;
      }
      assert items[..|items|] == items;
    }
  }

  /** `newhashcatObject`: when `hashcat_init` or `user_options_init` returns
      -1 no object is made and the table is untouched (any other return code
      carries on); otherwise every registered signal name in the shared
      table is cleared, callbacks and the count staying, and a fresh object
      is made from the engine's default options. */
  method NewHashcatObject(table: HandlerTable, id: PyRef, hashcatInitRc: int, optionsInitRc: int,
                          engineDefaults: map<string, Stored>) returns (r: Option<HashcatSession>)
    requires table.Valid() && WellKinded(engineDefaults)
    modifies table.slots
    ensures table.Valid()
    ensures hashcatInitRc == -1 || optionsInitRc == -1 ==>
      r.None? && table.Entries() == old(table.Entries())
    ensures hashcatInitRc != -1 && optionsInitRc != -1 ==>
      r.Some? && fresh(r.value) && r.value.Valid()
      && r.value.id == id && r.value.Inputs() == Sources(None, None, None, None)
      && r.value.options == engineDefaults && r.value.rules == PyList([]) && r.value.hcArgc == 0
      && r.value.eventTypes == EventTypesTuple && r.value.initCalls == 0
      && table.Entries() == Silenced(old(table.Entries()))
  {
    if hashcatInitRc == -1 || optionsInitRc == -1 {
      return None;
    }
    table.ClearSignals();
    var obj := new HashcatSession(id, engineDefaults);
    r := Some(obj);
  }
}
