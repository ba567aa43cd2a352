/** The oclHashcat command-line wrapper: an object whose attributes are the
    command-line options, which remembers every option moved away from its
    default, turns those into command-line tokens, and prepends the attack
    mode's positional arguments. */
module Wrapper {
  import opened Common
  import opened PyValues
  import opened HashTypes
  import Session

  /** `cmd_short_switch`: options spelled with a one-letter switch. */
  function ShortSwitch(): map<string, string>
  {
    map[
      "attack-mode" := "a",
      "hash-type" := "m",
      "version" := "V",
      "help" := "h",
      "markov-threshold" := "t",
      "outfile" := "o",
      "separator" := "p",
      "segment-size" := "c",
      "gpu-devices" := "d",
      "workload-profile" := "w",
      "gpu-accel" := "n",
      "gpu-loops" := "u",
      "skip" := "s",
      "limit" := "l",
      "rule-left" := "j",
      "rule-right" := "k",
      "rules-file" := "r",
      "generate-rules" := "g",
      "custom-charset1" := "1",
      "custom-charset2" := "2",
      "custom-charset3" := "3",
      "custom-charset4" := "4",
      "increment" := "i",
      "benchmark" := "b"
    ]
  }

  /** `cmd_equal_required`: options written `--option=value`. It lists
      "remove-time", which no attribute produces: `remove_timer` becomes
      "remove-timer". */
  function EqualRequired(): seq<string>
  {
    [
      "benchmark-mode", "status-timer", "markov-hcstat", "markov-threshold", "runtime",
      "session", "restore-timer", "outfile-format", "remove-time", "debug-mode",
      "debug-file", "induction-dir", "outfile-check-dir", "cpu-affinity", "gpu-temp-abort",
      "gpu-temp-retain", "generate-rules-func-min", "generate-rules-func-max",
      "generate-rules-seed", "increment-min", "increment-max"
    ]
  }

  /** `ignore_vars`: attributes never recorded as changed options. */
  function IgnoreVars(): seq<string>
  {
    [
      "defaults", "hash_type", "words_files", "hash_file", "rules_files",
      "masks_file", "charset_file", "mask", "safe_dict"
    ]
  }

  /** `reset`: the attack inputs. */
  function ResetInputs(): map<string, PyValue>
  {
    map[
      "hash_file" := VNone,
      "words_files" := VList([]),
      "rules_files" := VList([]),
      "masks_file" := VNone,
      "charset_file" := VNone,
      "hash_type" := VInt(0),
      "mask" := VNone
    ]
  }

  /** `reset`: the boolean switches assigned before `hash_type`, all False. */
  function ResetEarlyFlags(): map<string, PyValue>
  {
    map[
      "eula" := VBool(false),
      "help" := VBool(false),
      "version" := VBool(false),
      "quiet" := VBool(false),
      "show" := VBool(false),
      "left" := VBool(false),
      "username" := VBool(false),
      "remove" := VBool(false),
      "force" := VBool(false),
      "hex_salt" := VBool(false),
      "hex_charset" := VBool(false),
      "hex_wordlist" := VBool(false),
      "gpu_async" := VBool(false),
      "gpu_temp_disable" := VBool(false),
      "powertune_disable" := VBool(false),
      "keyspace" := VBool(false)
    ]
  }

  /** `reset`: the boolean switches assigned after `hash_type`, all False. */
  function ResetLateFlags(): map<string, PyValue>
  {
    map[
      "increment" := VBool(false),
      "benchmark" := VBool(false),
      "status" := VBool(false),
      "status_automat" := VBool(false),
      "loopback" := VBool(false),
      "markov_disable" := VBool(false),
      "markov_classic" := VBool(false),
      "restore" := VBool(false),
      "restore_disable" := VBool(false),
      "outfile_autohex_disable" := VBool(false),
      "disable_potfile" := VBool(false),
      "potfile_disable" := VBool(false),
      "cleanup_rules" := VBool(false)
    ]
  }

  /** `reset`: the numeric options. */
  function ResetNumbers(): map<string, PyValue>
  {
    map[
      "runtime" := VInt(0),
      "segment_size" := VInt(1),
      "gpu_temp_abort" := VInt(90),
      "gpu_temp_retain" := VInt(80),
      "generate_rules" := VInt(0),
      "generate_rules_func_min" := VInt(1),
      "generate_rules_func_max" := VInt(4),
      "increment_min" := VInt(1),
      "increment_max" := VInt(54),
      "benchmark_mode" := VInt(1),
      "status_timer" := VInt(10),
      "weak_hash_threshold" := VInt(100),
      "markov_threshold" := VInt(0),
      "outfile_format" := VInt(3)
    ]
  }

  /** `reset`: the options left unset (None). */
  function ResetUnset(): map<string, PyValue>
  {
    map[
      "bitmap_max" := VNone,
      "gpu_devices" := VNone,
      "gpu_accel" := VNone,
      "gpu_loops" := VNone,
      "skip" := VNone,
      "limit" := VNone,
      "generate_rules_seed" := VNone,
      "markov_hcstat" := VNone,
      "outfile" := VNone,
      "outfile_check_timer" := VNone,
      "remove_timer" := VNone,
      "debug_mode" := VNone,
      "debug_file" := VNone,
      "induction_dir" := VNone,
      "outfile_check_dir" := VNone,
      "cpu_affinity" := VNone,
      "custom_charset4" := VNone
    ]
  }

  /** `reset`: the string options. */
  function ResetTexts(): map<string, PyValue>
  {
    map[
      "rule_left" := VStr(":"),
      "rule_right" := VStr(":"),
      "session" := VStr("default_session"),
      "separator" := VStr(":"),
      "custom_charset1" := VStr("?|?d?u"),
      "custom_charset2" := VStr("?|?d"),
      "custom_charset3" := VStr("?|?d*!$@_")
    ]
  }

  /** Every value `reset` assigns; the six groups have no name in common. */
  function ResetValues(): map<string, PyValue>
  {
    ResetInputs() + ResetEarlyFlags() + ResetLateFlags() + ResetNumbers() + ResetUnset() + ResetTexts()
  }

  /** `self.cmd`: the hashcat binary for the platform. `maxsize` is
      `sys.maxsize`, `system` is `platform.system()`. */
  function CommandName(maxsize: int, system: string, gcardType: string): string
  {
    var bits := if maxsize > 0x1_0000_0000 then "64" else "32";
    if Contains(system, "Win") then
      if Lower(gcardType) == "cuda" then "cudaHashcat" + bits + " " else "oclHashcat" + bits + " "
    else
      if Lower(gcardType) == "cuda" then "./cudaHashcat" + bits + ".bin" else "./oclHashcat" + bits + ".bin"
  }

  /** The command name tells the three platform choices apart: word size,
      Windows or not, CUDA or OpenCL. */
  lemma CommandNameInjective(m1: int, s1: string, g1: string, m2: int, s2: string, g2: string)
    requires CommandName(m1, s1, g1) == CommandName(m2, s2, g2)
    ensures (m1 > 0x1_0000_0000) == (m2 > 0x1_0000_0000)
    ensures Contains(s1, "Win") == Contains(s2, "Win")
    ensures (Lower(g1) == "cuda") == (Lower(g2) == "cuda")
  {
    var c1, c2 := CommandName(m1, s1, g1), CommandName(m2, s2, g2);
    var w1, w2 := Contains(s1, "Win"), Contains(s2, "Win");
    var k1, k2 := Lower(g1) == "cuda", Lower(g2) == "cuda";
    var b1, b2 := m1 > 0x1_0000_0000, m2 > 0x1_0000_0000;
    assert c1[0] == c2[0];
    assert (c1[0] == '.') == !w1 && (c2[0] == '.') == !w2;
    var j := if w1 then 0 else 2;
    assert c1[j] == c2[j];
    assert (c1[j] == 'c') == k1 && (c2[j] == 'c') == k2;
    assert |c1| == |c2|;
    var i := if w1 then |c1| - 3 else |c1| - 6;
    assert c1[i] == c2[i];
    assert (c1[i] == '6') == b1 && (c2[i] == '6') == b2;
  }

  /** `option.replace('_', '-')`. */
  function Dashed(name: string): string
  {
    ReplaceChar(name, '_', '-')
  }

  /** The two tables `build_args` consults. */
  datatype Switches = Switches(short: map<string, string>, equal: seq<string>)

  function Tables(): Switches
  {
    Switches(ShortSwitch(), EqualRequired())
  }

  /** The tokens for one changed option, given its dashed name and
      `str(value)`: a short switch and the value, `--option=value`, or a
      bare `--option` that drops the value. */
  function OptionTokens(sw: Switches, option: string, value: string): seq<string>
  {
    if option in sw.short then ["-" + sw.short[option], value]
    else if option in sw.equal then ["--" + option + "=" + value]
    else ["--" + option]
  }

  /** The tokens for a list of (dashed name, value) pairs, in list order. */
  function ArgsFrom(sw: Switches, opts: seq<(string, string)>): seq<string>
  {
    if |opts| == 0 then [] else OptionTokens(sw, opts[0].0, opts[0].1) + ArgsFrom(sw, opts[1..])
  }

  lemma {:induction false} ArgsFromAppend(sw: Switches, opts: seq<(string, string)>, o: (string, string))
    ensures ArgsFrom(sw, opts + [o]) == ArgsFrom(sw, opts) + OptionTokens(sw, o.0, o.1)
  {
    if |opts| > 0 {
      assert (opts + [o])[1..] == opts[1..] + [o];
      ArgsFromAppend(sw, opts[1..], o);
    } else {
      assert opts + [o] == [o];
    }
  }

  /** The (dashed name, `str(value)`) pair of each changed option. */
  function Settings(attrs: map<string, PyValue>, changed: seq<string>): seq<(string, string)>
    requires forall i :: 0 <= i < |changed| ==> changed[i] in attrs
  {
    seq(|changed|, i requires 0 <= i < |changed| => (Dashed(changed[i]), Str(attrs[changed[i]])))
  }

  lemma SettingsAppend(attrs: map<string, PyValue>, changed: seq<string>, i: nat)
    requires i < |changed| && forall k :: 0 <= k < |changed| ==> changed[k] in attrs
    ensures Settings(attrs, changed[..i + 1]) == Settings(attrs, changed[..i]) + [(Dashed(changed[i]), Str(attrs[changed[i]]))]
  {
    assert changed[..i + 1][..i] == changed[..i];
  }

  /** What `build_args()` returns for the current attributes. */
  function ArgsFor(attrs: map<string, PyValue>, changed: seq<string>): seq<string>
    requires forall i :: 0 <= i < |changed| ==> changed[i] in attrs
  {
    ArgsFrom(Tables(), Settings(attrs, changed))
  }

  /** One-letter switches, none of them '-'. */
  ghost predicate LettersReadable(short: map<string, string>)
  {
    forall o :: o in short ==> |short[o]| == 1 && short[o][0] != '-'
  }

  /** A different letter for every option. */
  ghost predicate LettersDistinct(short: map<string, string>)
  {
    forall o1, o2 :: o1 in short && o2 in short && short[o1] == short[o2] ==> o1 == o2
  }

  /** `=`-options whose names hold no '='. */
  ghost predicate EqualNamesReadable(equal: seq<string>)
  {
    forall i :: 0 <= i < |equal| ==> '=' !in equal[i]
  }

  /** Tables a command line can be read back with. */
  ghost predicate Readable(sw: Switches)
  {
    LettersReadable(sw.short) && LettersDistinct(sw.short) && EqualNamesReadable(sw.equal)
  }

  /** The wrapper's own tables can be read back. */
  lemma TablesReadable()
    ensures Readable(Tables())
  {
    ShortLettersReadable();
    ShortLettersDistinct();
    EqualRequiredReadable();
  }

  lemma ShortLettersReadable()
    ensures LettersReadable(ShortSwitch())
  {
  }

  lemma EqualRequiredReadable()
    ensures EqualNamesReadable(EqualRequired())
  {
  }

  /** The option a short switch letter stands for: the inverse of
      `cmd_short_switch`. */
  function OptionOfLetter(c: char): string
  {
    match c
    case 'a' => "attack-mode"
    case 'm' => "hash-type"
    case 'V' => "version"
    case 'h' => "help"
    case 't' => "markov-threshold"
    case 'o' => "outfile"
    case 'p' => "separator"
    case 'c' => "segment-size"
    case 'd' => "gpu-devices"
    case 'w' => "workload-profile"
    case 'n' => "gpu-accel"
    case 'u' => "gpu-loops"
    case 's' => "skip"
    case 'l' => "limit"
    case 'j' => "rule-left"
    case 'k' => "rule-right"
    case 'r' => "rules-file"
    case 'g' => "generate-rules"
    case '1' => "custom-charset1"
    case '2' => "custom-charset2"
    case '3' => "custom-charset3"
    case '4' => "custom-charset4"
    case 'i' => "increment"
    case 'b' => "benchmark"
    case _ => ""
  }

  lemma LetterInvertible(o: string)
    requires o in ShortSwitch()
    ensures |ShortSwitch()[o]| == 1 && OptionOfLetter(ShortSwitch()[o][0]) == o
  {
  }

  lemma ShortLettersDistinct()
    ensures LettersDistinct(ShortSwitch())
  {
    forall o1, o2 | o1 in ShortSwitch() && o2 in ShortSwitch() && ShortSwitch()[o1] == ShortSwitch()[o2]
      ensures o1 == o2
    {
      LetterInvertible(o1);
      LetterInvertible(o2);
      assert ShortSwitch()[o1][0] == ShortSwitch()[o2][0];
    }
  }

  /** The position of the first `c` in `s`, or |s|. */
  function IndexOfChar(s: string, c: char): (k: nat)
    ensures k <= |s|
    ensures forall j :: 0 <= j < k ==> s[j] != c
    ensures k < |s| ==> s[k] == c
  {
    if |s| == 0 || s[0] == c then 0 else 1 + IndexOfChar(s[1..], c)
  }

  /** The reading of a command line that `build_args` is meant to produce:
      each option with the value the command line carries for it. */
  ghost function ParseArgs(sw: Switches, tokens: seq<string>): seq<(string, Option<string>)>
    decreases |tokens|
  {
    if |tokens| == 0 then []
    else
      var t := tokens[0];
      if |t| == 2 && t[0] == '-' && t[1] != '-' && |tokens| >= 2
         && exists o :: o in sw.short && sw.short[o] == t[1..] then
        var o :| o in sw.short && sw.short[o] == t[1..];
        [(o, Some(tokens[1]))] + ParseArgs(sw, tokens[2..])
      else if |t| >= 2 && t[..2] == "--" then
        var rest := t[2..];
        var k := IndexOfChar(rest, '=');
        if k < |rest| && rest[..k] in sw.equal then [(rest[..k], Some(rest[k + 1..]))] + ParseArgs(sw, tokens[1..])
        else [(rest, None)] + ParseArgs(sw, tokens[1..])
      else [(t, None)] + ParseArgs(sw, tokens[1..])
  }

  /** Each option with the value its tokens keep: none for a bare flag. */
  function Kept(sw: Switches, opts: seq<(string, string)>): seq<(string, Option<string>)>
  {
    seq(|opts|, i requires 0 <= i < |opts| =>
      (opts[i].0, if opts[i].0 in sw.short || opts[i].0 in sw.equal then Some(opts[i].1) else None))
  }

  /** Reading back a short switch and its value. */
  lemma ParseShortStep(sw: Switches, o: string, v: string, rest: seq<string>)
    requires Readable(sw) && o in sw.short
    ensures ParseArgs(sw, ["-" + sw.short[o], v] + rest) == [(o, Some(v))] + ParseArgs(sw, rest)
  {
    var tokens := ["-" + sw.short[o], v] + rest;
    var t := tokens[0];
    assert tokens[2..] == rest;
    assert t[1..] == sw.short[o];
    forall o' | o' in sw.short && sw.short[o'] == t[1..]
      ensures o' == o
    {
    }
  }

  /** Reading back an `--option=value` token. */
  lemma ParseEqualStep(sw: Switches, o: string, v: string, rest: seq<string>)
    requires o in sw.equal && '=' !in o
    ensures ParseArgs(sw, ["--" + o + "=" + v] + rest) == [(o, Some(v))] + ParseArgs(sw, rest)
  {
    var t := "--" + o + "=" + v;
    var tokens := [t] + rest;
    assert tokens[1..] == rest;
    assert t[..2] == "--";
    var r := t[2..];
    assert r == o + "=" + v;
    assert IndexOfChar(r, '=') == |o| by {
      assert r[|o|] == '=';
      assert forall j :: 0 <= j < |o| ==> r[j] == o[j];
      IndexBound(r, '=', |o|);
    }
    assert r[..|o|] == o;
    assert r[|o| + 1..] == v;
  }

  /** Reading back a bare `--option` token. */
  lemma ParseBareStep(sw: Switches, o: string, rest: seq<string>)
    requires '=' !in o
    ensures ParseArgs(sw, ["--" + o] + rest) == [(o, None)] + ParseArgs(sw, rest)
  {
    var t := "--" + o;
    var tokens := [t] + rest;
    assert tokens[1..] == rest;
    assert t[..2] == "--";
    assert t[2..] == o;
    IndexBound(o, '=', |o|);
  }

  /** Reading the tokens back gives every option in order, with its value
      exactly when the option is a short switch or an `=`-option. */
  lemma {:induction false} ParseArgsFrom(sw: Switches, opts: seq<(string, string)>)
    requires Readable(sw)
    requires forall i :: 0 <= i < |opts| ==> '=' !in opts[i].0
    ensures ParseArgs(sw, ArgsFrom(sw, opts)) == Kept(sw, opts)
  {
    if |opts| > 0 {
      var o, v := opts[0].0, opts[0].1;
      var rest := ArgsFrom(sw, opts[1..]);
      ParseArgsFrom(sw, opts[1..]);
      assert ArgsFrom(sw, opts) == OptionTokens(sw, o, v) + rest;
      assert Kept(sw, opts) == [Kept(sw, opts)[0]] + Kept(sw, opts[1..]);
      if o in sw.short {
        assert OptionTokens(sw, o, v) + rest == ["-" + sw.short[o], v] + rest;
        ParseShortStep(sw, o, v, rest);
      } else if o in sw.equal {
        ParseEqualStep(sw, o, v, rest);
      } else {
        ParseBareStep(sw, o, rest);
      }
    }
  }

  /** The first `c` is at `k` when `c` occurs at `k` and not before. */
  lemma IndexBound(s: string, c: char, k: nat)
    requires k <= |s| && (k < |s| ==> s[k] == c)
    requires forall j :: 0 <= j < k ==> s[j] != c
    ensures IndexOfChar(s, c) == k
  {
  }

  /** `__setattr__`'s test: the attribute has a recorded default, the new
      value is not `==` to it, and the attribute is not ignored. */
  predicate Tracks(defaults: map<string, PyValue>, name: string, value: PyValue)
  {
    name in defaults && !PyEq(value, defaults[name]) && name !in IgnoreVars()
  }

  /** `defaults_changed` after one assignment. */
  function Track(defaults: map<string, PyValue>, changed: seq<string>, name: string, value: PyValue): seq<string>
  {
    changed + (if Tracks(defaults, name, value) then [name] else [])
  }

  /** Moving an option away from its default and back leaves it listed:
      nothing is ever removed, so `build_args` still emits it. */
  lemma RevertedOptionStaysListed(defaults: map<string, PyValue>, changed: seq<string>, name: string, value: PyValue)
    requires Tracks(defaults, name, value)
    ensures Track(defaults, Track(defaults, changed, name, value), name, defaults[name]) == changed + [name]
  {
    PyEqReflexive(defaults[name]);
  }

  /** Two different non-default values in a row list the option twice. */
  lemma RepeatedChangeListedTwice(defaults: map<string, PyValue>, changed: seq<string>, name: string, v1: PyValue, v2: PyValue)
    requires Tracks(defaults, name, v1) && Tracks(defaults, name, v2)
    ensures Track(defaults, Track(defaults, changed, name, v1), name, v2) == changed + [name, name]
  {
  }

  /** Since `==` makes True equal 1 and False equal 0, assigning 0 to an
      option whose default is False, or 1 where it is True, is no change. */
  lemma BoolAndIntAlike(defaults: map<string, PyValue>, changed: seq<string>, name: string, b: bool)
    requires name in defaults && defaults[name] == VBool(b)
    ensures Track(defaults, changed, name, VInt(if b then 1 else 0)) == changed
  {
  }

  /** Right after `reset` every attribute holds its default, so nothing
      would be recorded until a value actually changes. */
  lemma NothingTrackedAtDefaults(defaults: map<string, PyValue>, attrs: map<string, PyValue>)
    requires forall n :: n in defaults ==> n in attrs && attrs[n] == defaults[n]
    ensures forall n :: n in defaults ==> !Tracks(defaults, n, attrs[n])
  {
    forall n | n in defaults
      ensures !Tracks(defaults, n, attrs[n])
    {
      PyEqReflexive(defaults[n]);
    }
  }

  /** `remove_timer` is emitted as a bare "--remove-timer", whatever its
      value: the `=`-list spells it "remove-time". */
  lemma RemoveTimerLosesValue(value: string)
    ensures OptionTokens(Tables(), Dashed("remove_timer"), value) == ["--remove-timer"]
  {
    DashedRemoveTimer();
    RemoveTimerNotShort();
    RemoveTimerNotEqual();
    assert "--" + "remove-timer" == "--remove-timer";
  }

  lemma DashedRemoveTimer()
    ensures Dashed("remove_timer") == "remove-timer"
  {
  }

  lemma RemoveTimerNotShort()
    ensures "remove-timer" !in ShortSwitch()
  {
  }

  lemma RemoveTimerNotEqual()
    ensures "remove-timer" !in EqualRequired()
  {
  }

  /** A short switch carries `str(value)`, so a boolean flag such as
      `benchmark` is followed by the word "True". */
  lemma ShortSwitchShowsBool()
    ensures OptionTokens(Tables(), Dashed("benchmark"), Str(VBool(true))) == ["-b", "True"]
  {
    assert Dashed("benchmark") == "benchmark";
    assert ShortSwitch()["benchmark"] == "b";
    assert "-" + "b" == "-b";
  }

  /** The attributes the attack methods read. */
  predicate HasAttackInputs(attrs: map<string, PyValue>)
  {
    HasResetInputs(attrs) && "bin_dir" in attrs
  }

  /** The attributes `reset` provides for the attack methods. */
  predicate HasResetInputs(attrs: map<string, PyValue>)
  {
    "hash_type" in attrs && "hash_file" in attrs && "words_files" in attrs && "rules_files" in attrs
    && "masks_file" in attrs && "mask" in attrs
  }

  /** `reset` provides every attack input except `bin_dir`. */
  lemma ResetProvidesInputs(attrs: map<string, PyValue>)
    ensures HasResetInputs(attrs + ResetValues())
  {
    assert "hash_type" in ResetInputs() && "hash_file" in ResetInputs() && "words_files" in ResetInputs();
    assert "rules_files" in ResetInputs() && "masks_file" in ResetInputs() && "mask" in ResetInputs();
  }

  /** `os.path` on strings, which the model does not see: `isabs`, `join`,
      `isfile`. */
  datatype OsPath = OsPath(isAbs: string -> bool, join: (string, string) -> string, isFile: string -> bool)

  /** What an attack method does: start hashcat with an argv (its exit code
      comes from the process), return None, or raise. */
  datatype AttackOutcome =
    | Launched(argv: seq<PyValue>)
    | ReturnedNone
    | RaisedIndexError
    | RaisedTypeError
    | RaisedAttributeError

  /** `v[i]` on a list or a string. */
  datatype Item = Item(value: PyValue) | NoItem | NotSubscriptable

  function Subscript(v: PyValue, i: nat): (r: Item)
    ensures r.Item? <==> (v.VList? && i < |v.items|) || (v.VStr? && i < |v.s|)
    ensures r.NotSubscriptable? <==> !v.VList? && !v.VStr?
  {
    match v
    case VList(xs) => if i < |xs| then Item(xs[i]) else NoItem
    case VStr(s) => if i < |s| then Item(VStr([s[i]])) else NoItem
    case _ => NotSubscriptable
  }

  /** What `for x in v` walks over: a list's items or a string's characters. */
  function Iterate(v: PyValue): Option<seq<PyValue>>
  {
    match v
    case VList(xs) => Some(xs)
    case VStr(s) => Some(seq(|s|, i requires 0 <= i < |s| => VStr([s[i]])))
    case _ => None
  }

  /** The hash-type and attack-mode switches, then the hash file: the five
      tokens every attack method inserts at the front of its argv. */
  function Prefix(code: PyValue, mode: string, hashFile: PyValue): seq<PyValue>
  {
    [VStr("-m"), VStr(Str(code)), VStr("-a"), VStr(mode), hashFile]
  }

  function Tokens(args: seq<string>): (r: seq<PyValue>)
    ensures |r| == |args| && forall i :: 0 <= i < |args| ==> r[i] == VStr(args[i])
  {
    seq(|args|, i requires 0 <= i < |args| => VStr(args[i]))
  }

  /** A rules file, joined to the install directory when relative.
      `os.path.isabs` and `os.path.join` call string methods on their
      arguments, so an entry that is not a string, or a relative one with a
      `bin_dir` that is not a string, raises AttributeError. */
  function Resolve(rule: PyValue, binDir: PyValue, os: OsPath): (r: Result<string, AttackOutcome>)
    ensures r.Err? <==> !rule.VStr? || (!os.isAbs(rule.s) && !binDir.VStr?)
    ensures r.Err? ==> r.error == RaisedAttributeError
  {
    if !rule.VStr? then Err(RaisedAttributeError)
    else if os.isAbs(rule.s) then Ok(rule.s)
    else if binDir.VStr? then Ok(os.join(binDir.s, rule.s))
    else Err(RaisedAttributeError)
  }

  /** What one rules entry adds: "-r" and the path when the file exists.
      `os.path.isfile` catches only `os.error`, so the TypeError `stat`
      raises for a path holding a NUL escapes. */
  function RuleArgs(rule: PyValue, binDir: PyValue, os: OsPath): (r: Result<seq<PyValue>, AttackOutcome>)
    ensures r.Err? ==> r.error == RaisedAttributeError || r.error == RaisedTypeError
  {
    match Resolve(rule, binDir, os)
    case Err(e) => Err(e)
    case Ok(path) =>
      if '\0' in path then Err(RaisedTypeError)
      else Ok(if os.isFile(path) then [VStr("-r"), VStr(path)] else [])
  }

  /** The "-r" pairs `straight` appends, in the order of the rules files, or
      the exception of the first entry that raises. */
  function RulesArgs(rules: seq<PyValue>, binDir: PyValue, os: OsPath): (r: Result<seq<PyValue>, AttackOutcome>)
    ensures r.Err? ==> r.error == RaisedAttributeError || r.error == RaisedTypeError
  {
    if |rules| == 0 then Ok([])
    else
      match RulesArgs(rules[..|rules| - 1], binDir, os)
      case Err(e) => Err(e)
      case Ok(front) =>
        match RuleArgs(rules[|rules| - 1], binDir, os)
        case Err(e) => Err(e)
        case Ok(more) => Ok(front + more)
  }

  /** Once an entry has raised, later entries change nothing. */
  lemma {:induction false} RulesArgsErrSticks(rules: seq<PyValue>, i: nat, binDir: PyValue, os: OsPath)
    requires i <= |rules| && RulesArgs(rules[..i], binDir, os).Err?
    ensures RulesArgs(rules, binDir, os) == RulesArgs(rules[..i], binDir, os)
    decreases |rules| - i
  {
    if i < |rules| {
      assert rules[..i + 1][..i] == rules[..i];
      RulesArgsErrSticks(rules, i + 1, binDir, os);
    } else {
      assert rules[..i] == rules;
    }
  }

  /** The loop finishes exactly when no entry raises. */
  lemma {:induction false} RulesArgsOkIff(rules: seq<PyValue>, binDir: PyValue, os: OsPath)
    ensures RulesArgs(rules, binDir, os).Ok? <==> forall i :: 0 <= i < |rules| ==> RuleArgs(rules[i], binDir, os).Ok?
  {
    if |rules| > 0 {
      var n := |rules| - 1;
      RulesArgsOkIff(rules[..n], binDir, os);
      assert forall i :: 0 <= i < n ==> rules[..n][i] == rules[i];
    }
  }

  /** When an entry raises, the exception is that of the first entry that
      does. */
  lemma {:induction false} RulesArgsFirstError(rules: seq<PyValue>, binDir: PyValue, os: OsPath)
    ensures RulesArgs(rules, binDir, os).Err? ==>
      exists i :: 0 <= i < |rules| && RuleArgs(rules[i], binDir, os).Err?
        && RulesArgs(rules, binDir, os).error == RuleArgs(rules[i], binDir, os).error
        && forall k :: 0 <= k < i ==> RuleArgs(rules[k], binDir, os).Ok?
  {
    if |rules| > 0 {
      var n := |rules| - 1;
      RulesArgsFirstError(rules[..n], binDir, os);
      RulesArgsOkIff(rules[..n], binDir, os);
      assert forall i :: 0 <= i < n ==> rules[..n][i] == rules[i];
    }
  }

  /** Only files that exist are passed, each after its own "-r". */
  lemma {:induction false} RulesArgsPairs(rules: seq<PyValue>, binDir: PyValue, os: OsPath)
    requires RulesArgs(rules, binDir, os).Ok?
    ensures var r := RulesArgs(rules, binDir, os).value;
      |r| % 2 == 0
      && forall j :: 0 <= j < |r| / 2 ==> r[2 * j] == VStr("-r") && r[2 * j + 1].VStr? && os.isFile(r[2 * j + 1].s)
  {
    if |rules| > 0 {
      var n := |rules| - 1;
      RulesArgsPairs(rules[..n], binDir, os);
      var front := RulesArgs(rules[..n], binDir, os).value;
      var more := RuleArgs(rules[n], binDir, os).value;
      var r := RulesArgs(rules, binDir, os).value;
      assert r == front + more;
      forall j | 0 <= j < |front| / 2
        ensures r[2 * j] == front[2 * j] && r[2 * j + 1] == front[2 * j + 1]
      {
      }
      assert |more| > 0 ==> r[|front|] == VStr("-r") && r[|front| + 1] == more[1];
    }
  }

  /** Every rules file that exists (after joining a relative name to
      `bin_dir`) is passed. */
  lemma {:induction false} RulesArgsComplete(rules: seq<PyValue>, binDir: PyValue, os: OsPath)
    requires RulesArgs(rules, binDir, os).Ok?
    ensures forall i :: 0 <= i < |rules| && Resolve(rules[i], binDir, os).Ok? && os.isFile(Resolve(rules[i], binDir, os).value) ==>
      VStr(Resolve(rules[i], binDir, os).value) in RulesArgs(rules, binDir, os).value
  {
    if |rules| > 0 {
      var n := |rules| - 1;
      RulesArgsComplete(rules[..n], binDir, os);
      assert forall i :: 0 <= i < n ==> rules[..n][i] == rules[i];
      assert RulesArgs(rules, binDir, os).value
        == RulesArgs(rules[..n], binDir, os).value + RuleArgs(rules[n], binDir, os).value;
    }
  }

  /** The mask of the hybrid attacks: `masks_file` when truthy, else
      `mask`; none when both are None. */
  function ChosenMask(masksFile: PyValue, mask: PyValue): Option<PyValue>
  {
    if masksFile.VNone? && mask.VNone? then None
    else Some(if Truthy(masksFile) then masksFile else mask)
  }

  /** `straight()`: words_files[0] as dictionary, then the rules files. */
  function StraightOutcome(attrs: map<string, PyValue>, args: seq<string>, code: PyValue, os: OsPath): AttackOutcome
    requires HasAttackInputs(attrs)
  {
    match Subscript(attrs["words_files"], 0)
    case NotSubscriptable => RaisedTypeError
    case NoItem => ReturnedNone
    case Item(w0) =>
      match Iterate(attrs["rules_files"])
      case None => RaisedTypeError
      case Some(rules) =>
        match RulesArgs(rules, attrs["bin_dir"], os)
        case Err(e) => e
        case Ok(more) => Launched(Prefix(code, "0", attrs["hash_file"]) + [w0] + Tokens(args) + more)
  }

  /** `combinator()`: the first two word files. */
  function CombinatorOutcome(attrs: map<string, PyValue>, args: seq<string>, code: PyValue): AttackOutcome
    requires HasAttackInputs(attrs)
  {
    match Subscript(attrs["words_files"], 1)
    case NotSubscriptable => RaisedTypeError
    case NoItem => ReturnedNone
    case Item(w1) =>
      Launched(Prefix(code, "1", attrs["hash_file"]) + [Subscript(attrs["words_files"], 0).value, w1] + Tokens(args))
  }

  /** `brute_force()`: words_files[0] stands where the mask goes. */
  function BruteForceOutcome(attrs: map<string, PyValue>, args: seq<string>, code: PyValue): AttackOutcome
    requires HasAttackInputs(attrs)
  {
    match Subscript(attrs["words_files"], 0)
    case NotSubscriptable => RaisedTypeError
    case NoItem => ReturnedNone
    case Item(w0) => Launched(Prefix(code, "3", attrs["hash_file"]) + [w0] + Tokens(args))
  }

  /** `hybrid_dict_mask()`: the mask is checked first; the word file is
      read outside the try, so an empty list raises IndexError. */
  function HybridDictMaskOutcome(attrs: map<string, PyValue>, args: seq<string>, code: PyValue): AttackOutcome
    requires HasAttackInputs(attrs)
  {
    match ChosenMask(attrs["masks_file"], attrs["mask"])
    case None => ReturnedNone
    case Some(m) =>
      match Subscript(attrs["words_files"], 0)
      case NotSubscriptable => RaisedTypeError
      case NoItem => RaisedIndexError
      case Item(w0) => Launched(Prefix(code, "6", attrs["hash_file"]) + [w0, m] + Tokens(args))
  }

  /** `hybrid_mask_dict()`: the word file is checked first, then the mask. */
  function HybridMaskDictOutcome(attrs: map<string, PyValue>, args: seq<string>, code: PyValue): AttackOutcome
    requires HasAttackInputs(attrs)
  {
    match Subscript(attrs["words_files"], 0)
    case NotSubscriptable => RaisedTypeError
    case NoItem => ReturnedNone
    case Item(w0) =>
      match ChosenMask(attrs["masks_file"], attrs["mask"])
      case None => ReturnedNone
      case Some(m) => Launched(Prefix(code, "7", attrs["hash_file"]) + [m, w0] + Tokens(args))
  }

  /** The engine's positional inputs, in a mode's layout. */
  function Place(layout: seq<Session.Input>, hashFile: PyValue, dict1: PyValue, dict2: PyValue, mask: PyValue): seq<PyValue>
  {
    seq(|layout|, i requires 0 <= i < |layout| =>
      match layout[i]
      case HashInput => hashFile
      case Dict1Input => dict1
      case Dict2Input => dict2
      case MaskInput => mask)
  }

  /** A launch built from the five-token prefix, the remaining positional
      inputs, the option tokens and anything after them has the launch shape
      for those inputs. */
  lemma PrefixLaunchShape(code: PyValue, codes: set<string>, mode: string, hashFile: PyValue,
                          rest: seq<PyValue>, args: seq<string>, tail: seq<PyValue>)
    requires Str(code) in codes
    ensures LaunchShape(Prefix(code, mode, hashFile) + rest + Tokens(args) + tail, codes, mode, [hashFile] + rest, args)
  {
    var argv := Prefix(code, mode, hashFile) + rest + Tokens(args) + tail;
    var n := 5 + |rest|;
    assert argv[4..n] == [hashFile] + rest;
    assert argv[n..n + |args|] == Tokens(args);
  }

  /** Every launch starts "-m", a code of the table, "-a", the mode, and
      then the positional inputs in the order the C binding's `execute`
      uses for that mode, followed by the changed options. */
  lemma StraightFollowsEngineLayout(table: map<string, string>, attrs: map<string, PyValue>, args: seq<string>,
                                    matches: Option<seq<string>>, os: OsPath)
    requires HasAttackInputs(attrs) && "0" in table.Values
    ensures var out := StraightOutcome(attrs, args, HashCode(table, attrs["hash_type"], matches), os);
      out.Launched? ==>
      LaunchShape(out.argv, table.Values, "0",
        Place(Session.Layout(0).value, attrs["hash_file"], Subscript(attrs["words_files"], 0).value, VNone, VNone), args)
  {
    var code := HashCode(table, attrs["hash_type"], matches);
    ModeTokenIsKnownCode(table, attrs["hash_type"], matches);
    var out := StraightOutcome(attrs, args, code, os);
    if out.Launched? {
      var w0 := Subscript(attrs["words_files"], 0).value;
      var rules := Iterate(attrs["rules_files"]).value;
      var more := RulesArgs(rules, attrs["bin_dir"], os).value;
      assert out.argv == Prefix(code, "0", attrs["hash_file"]) + [w0] + Tokens(args) + more;
      assert Place(Session.Layout(0).value, attrs["hash_file"], w0, VNone, VNone) == [attrs["hash_file"], w0];
      PrefixLaunchShape(code, table.Values, "0", attrs["hash_file"], [w0], args, more);
    }
  }

  lemma CombinatorFollowsEngineLayout(table: map<string, string>, attrs: map<string, PyValue>, args: seq<string>,
                                      matches: Option<seq<string>>)
    requires HasAttackInputs(attrs) && "0" in table.Values
    ensures var out := CombinatorOutcome(attrs, args, HashCode(table, attrs["hash_type"], matches));
      out.Launched? ==>
      LaunchShape(out.argv, table.Values, "1",
        Place(Session.Layout(1).value, attrs["hash_file"], Subscript(attrs["words_files"], 0).value,
              Subscript(attrs["words_files"], 1).value, VNone), args)
  {
    var code := HashCode(table, attrs["hash_type"], matches);
    ModeTokenIsKnownCode(table, attrs["hash_type"], matches);
    var out := CombinatorOutcome(attrs, args, code);
    if out.Launched? {
      var w0 := Subscript(attrs["words_files"], 0).value;
      var w1 := Subscript(attrs["words_files"], 1).value;
      assert out.argv == Prefix(code, "1", attrs["hash_file"]) + [w0, w1] + Tokens(args) + [];
      assert Place(Session.Layout(1).value, attrs["hash_file"], w0, w1, VNone) == [attrs["hash_file"], w0, w1];
      PrefixLaunchShape(code, table.Values, "1", attrs["hash_file"], [w0, w1], args, []);
    }
  }

  /** Brute force puts words_files[0] where the engine expects the mask. */
  lemma BruteForceFollowsEngineLayout(table: map<string, string>, attrs: map<string, PyValue>, args: seq<string>,
                                      matches: Option<seq<string>>)
    requires HasAttackInputs(attrs) && "0" in table.Values
    ensures var out := BruteForceOutcome(attrs, args, HashCode(table, attrs["hash_type"], matches));
      out.Launched? ==>
      LaunchShape(out.argv, table.Values, "3",
        Place(Session.Layout(3).value, attrs["hash_file"], VNone, VNone, Subscript(attrs["words_files"], 0).value), args)
  {
    var code := HashCode(table, attrs["hash_type"], matches);
    ModeTokenIsKnownCode(table, attrs["hash_type"], matches);
    var out := BruteForceOutcome(attrs, args, code);
    if out.Launched? {
      var w0 := Subscript(attrs["words_files"], 0).value;
      assert out.argv == Prefix(code, "3", attrs["hash_file"]) + [w0] + Tokens(args) + [];
      assert Place(Session.Layout(3).value, attrs["hash_file"], VNone, VNone, w0) == [attrs["hash_file"], w0];
      PrefixLaunchShape(code, table.Values, "3", attrs["hash_file"], [w0], args, []);
    }
  }

  lemma HybridDictMaskFollowsEngineLayout(table: map<string, string>, attrs: map<string, PyValue>, args: seq<string>,
                                          matches: Option<seq<string>>)
    requires HasAttackInputs(attrs) && "0" in table.Values
    ensures var out := HybridDictMaskOutcome(attrs, args, HashCode(table, attrs["hash_type"], matches));
      out.Launched? ==>
      LaunchShape(out.argv, table.Values, "6",
        Place(Session.Layout(6).value, attrs["hash_file"], Subscript(attrs["words_files"], 0).value, VNone,
              ChosenMask(attrs["masks_file"], attrs["mask"]).value), args)
  {
    var code := HashCode(table, attrs["hash_type"], matches);
    ModeTokenIsKnownCode(table, attrs["hash_type"], matches);
    var out := HybridDictMaskOutcome(attrs, args, code);
    if out.Launched? {
      var w0 := Subscript(attrs["words_files"], 0).value;
      var m := ChosenMask(attrs["masks_file"], attrs["mask"]).value;
      assert out.argv == Prefix(code, "6", attrs["hash_file"]) + [w0, m] + Tokens(args) + [];
      assert Place(Session.Layout(6).value, attrs["hash_file"], w0, VNone, m) == [attrs["hash_file"], w0, m];
      PrefixLaunchShape(code, table.Values, "6", attrs["hash_file"], [w0, m], args, []);
    }
  }

  lemma HybridMaskDictFollowsEngineLayout(table: map<string, string>, attrs: map<string, PyValue>, args: seq<string>,
                                          matches: Option<seq<string>>)
    requires HasAttackInputs(attrs) && "0" in table.Values
    ensures var out := HybridMaskDictOutcome(attrs, args, HashCode(table, attrs["hash_type"], matches));
      out.Launched? ==>
      LaunchShape(out.argv, table.Values, "7",
        Place(Session.Layout(7).value, attrs["hash_file"], Subscript(attrs["words_files"], 0).value, VNone,
              ChosenMask(attrs["masks_file"], attrs["mask"]).value), args)
  {
    var code := HashCode(table, attrs["hash_type"], matches);
    ModeTokenIsKnownCode(table, attrs["hash_type"], matches);
    var out := HybridMaskDictOutcome(attrs, args, code);
    if out.Launched? {
      var w0 := Subscript(attrs["words_files"], 0).value;
      var m := ChosenMask(attrs["masks_file"], attrs["mask"]).value;
      assert out.argv == Prefix(code, "7", attrs["hash_file"]) + [m, w0] + Tokens(args) + [];
      assert Place(Session.Layout(7).value, attrs["hash_file"], w0, VNone, m) == [attrs["hash_file"], m, w0];
      PrefixLaunchShape(code, table.Values, "7", attrs["hash_file"], [m, w0], args, []);
    }
  }

  /** The names the constructor sets outside `reset` are not reset fields. */
  lemma ConstructorNamesNotReset()
    ensures "verbose" !in ResetValues() && "restore_struct" !in ResetValues()
    ensures "bin_dir" !in ResetValues() && "cmd" !in ResetValues()
  {
    NotInResetInputs();
    NotInResetEarlyFlags();
    NotInResetLateFlags();
    NotInResetNumbers();
    NotInResetUnset();
    NotInResetTexts();
  }

  lemma NotInResetInputs()
    ensures "verbose" !in ResetInputs() && "restore_struct" !in ResetInputs() && "bin_dir" !in ResetInputs() && "cmd" !in ResetInputs()
  {
  }

  lemma NotInResetEarlyFlags()
    ensures "verbose" !in ResetEarlyFlags() && "restore_struct" !in ResetEarlyFlags()
    ensures "bin_dir" !in ResetEarlyFlags() && "cmd" !in ResetEarlyFlags()
  {
  }

  lemma NotInResetLateFlags()
    ensures "verbose" !in ResetLateFlags() && "restore_struct" !in ResetLateFlags()
    ensures "bin_dir" !in ResetLateFlags() && "cmd" !in ResetLateFlags()
  {
  }

  lemma NotInResetNumbers()
    ensures "verbose" !in ResetNumbers() && "restore_struct" !in ResetNumbers() && "bin_dir" !in ResetNumbers() && "cmd" !in ResetNumbers()
  {
  }

  lemma NotInResetUnset()
    ensures "verbose" !in ResetUnset() && "restore_struct" !in ResetUnset() && "bin_dir" !in ResetUnset() && "cmd" !in ResetUnset()
  {
  }

  lemma NotInResetTexts()
    ensures "verbose" !in ResetTexts() && "restore_struct" !in ResetTexts() && "bin_dir" !in ResetTexts() && "cmd" !in ResetTexts()
  {
  }


  /** An argv that begins "-m", a code of the table, "-a", `mode`, the
      positional inputs, and then the tokens of the changed options. */
  ghost predicate LaunchShape(argv: seq<PyValue>, codes: set<string>, mode: string, positional: seq<PyValue>, args: seq<string>)
  {
    var n := 4 + |positional|;
    n + |args| <= |argv|
    && argv[0] == VStr("-m") && argv[1].VStr? && argv[1].s in codes
    && argv[2] == VStr("-a") && argv[3] == VStr(mode)
    && argv[4..n] == positional
    && argv[n..n + |args|] == Tokens(args)
  }

  /** The loop of `straight()` over the rules files: each one, joined to
      `bin_dir` when relative, is appended after "-r" if it exists; the
      launch happens only when no entry raises. */
  method AddRules(argv: seq<PyValue>, rules: seq<PyValue>, binDir: PyValue, os: OsPath) returns (out: AttackOutcome)
    ensures RulesArgs(rules, binDir, os).Ok? ==> out == Launched(argv + RulesArgs(rules, binDir, os).value)
    ensures RulesArgs(rules, binDir, os).Err? ==> out == RulesArgs(rules, binDir, os).error
  {
    var r := argv;
    var i := 0;
    while i < |rules|
      invariant 0 <= i <= |rules|
      invariant RulesArgs(rules[..i], binDir, os).Ok?
      invariant r == argv + RulesArgs(rules[..i], binDir, os).value
    {
      assert rules[..i + 1][..i] == rules[..i];
      var rule := rules[i];
      if !rule.VStr? {
        RulesArgsErrSticks(rules, i + 1, binDir, os);
        return RaisedAttributeError;
      }
      var path := rule.s;
      if !os.isAbs(path) {
        if !binDir.VStr? {
          RulesArgsErrSticks(rules, i + 1, binDir, os);
          return RaisedAttributeError;
        }
        path := os.join(binDir.s, path);
      }
      if '\0' in path {
        RulesArgsErrSticks(rules, i + 1, binDir, os);
        return RaisedTypeError;
      }
      if os.isFile(path) {
        r := r + [VStr("-r"), VStr(path)];
      }
      i := i + 1;
    }
    assert rules[..i] == rules;
    out := Launched(r);
  }

  /** An `oclHashcatWrapper` object. `attrs` is its instance dictionary
      apart from `defaults` and `defaults_changed`, which are the other two
      fields. */
  class OclHashcatWrapper {
    /** The class attribute `hash_type_dict`. */
    const hashTypeDict: map<string, string>
    var attrs: map<string, PyValue>
    var defaults: map<string, PyValue>
    var defaultsChanged: seq<string>

    /** Every recorded default belongs to an attribute, and every listed
        option has a default. */
    ghost predicate Valid()
      reads this
    {
      defaults.Keys <= attrs.Keys
      && forall i :: 0 <= i < |defaultsChanged| ==> defaultsChanged[i] in defaults
    }

    ghost predicate Ready()
      reads this
    {
      Valid() && HasAttackInputs(attrs)
    }

    /** `__init__(bin_dir, gcard_type, verbose)` on an object whose class
        attribute `hash_type_dict` is the table of the HashTypes module. */
    constructor (binDir: PyValue, gcardType: string, verbose: PyValue, maxsize: int, system: string, restoreStruct: nat)
      ensures Ready()
      ensures attrs == (map["verbose" := verbose] + ResetValues())["restore_struct" := VObject(restoreStruct)]
        ["bin_dir" := binDir]["cmd" := VStr(CommandName(maxsize, system, gcardType))]
      ensures defaults == (map["verbose" := verbose] + ResetValues()) - {"restore_struct"}
      ensures defaultsChanged == []
      ensures hashTypeDict == HashTypeDict
    {
      hashTypeDict := HashTypeDict;
      attrs := map[];
      defaults := map[];
      defaultsChanged := [];
      new;
      Init(binDir, gcardType, verbose, maxsize, system, restoreStruct);
    }

    /** The statements of `__init__`: `verbose` is set before `reset`, so
        it gets a default; `restore_struct`, `bin_dir` and `cmd` are set
        after it and get none. */
    method Init(binDir: PyValue, gcardType: string, verbose: PyValue, maxsize: int, system: string, restoreStruct: nat)
      requires attrs == map[] && defaults == map[] && defaultsChanged == []
      modifies this
      ensures Ready()
      ensures attrs == (map["verbose" := verbose] + ResetValues())["restore_struct" := VObject(restoreStruct)]
        ["bin_dir" := binDir]["cmd" := VStr(CommandName(maxsize, system, gcardType))]
      ensures defaults == (map["verbose" := verbose] + ResetValues()) - {"restore_struct"}
      ensures defaultsChanged == []
    {
      SetAttr("verbose", verbose);
      Reset();
      ghost var snapshot := map["verbose" := verbose] + ResetValues();
      assert attrs == snapshot;
      ConstructorNamesNotReset();
      ResetProvidesInputs(map["verbose" := verbose]);
      assert "bin_dir" !in defaults && "cmd" !in defaults;
      SetAttr("restore_struct", VObject(restoreStruct));
      SetAttr("bin_dir", binDir);
      SetAttr("cmd", VStr(CommandName(maxsize, system, gcardType)));
    }

    /** `__setattr__(name, value)`: the attribute is always set; its name
        is appended when the assignment moves it away from its default. */
    method SetAttr(name: string, value: PyValue)
      requires Valid()
      requires name != "defaults" && name != "defaults_changed"
      modifies this
      ensures Valid()
      ensures attrs == old(attrs)[name := value]
      ensures defaults == old(defaults)
      ensures defaultsChanged == Track(old(defaults), old(defaultsChanged), name, value)
    {
      if name in defaults && !PyEq(value, defaults[name]) && name !in IgnoreVars() {
        defaultsChanged := defaultsChanged + [name];
      }
      attrs := attrs[name := value];
    }

    /** `reset()`: every option back to its default, the defaults
        snapshotted from all attributes but `restore_struct`, and the list
        of changed options emptied. */
    method Reset()
      requires Valid()
      modifies this
      ensures Valid()
      ensures attrs == old(attrs) + ResetValues()
      ensures defaults == attrs - {"restore_struct"}
      ensures defaultsChanged == []
    {
      attrs := attrs + ResetValues();
      defaults := attrs - {"restore_struct"};
      defaultsChanged := [];
    }

    /** `build_args()`: the tokens of every listed option, in list order. */
    method BuildArgs() returns (argv: seq<string>)
      requires Valid()
      ensures argv == ArgsFor(attrs, defaultsChanged)
    {
      argv := [];
      var i := 0;
      while i < |defaultsChanged|
        invariant 0 <= i <= |defaultsChanged|
        invariant argv == ArgsFrom(Tables(), Settings(attrs, defaultsChanged[..i]))
      {
        var option := defaultsChanged[i];
        var value := Str(attrs[option]);
        var dashed := ReplaceChar(option, '_', '-');
        ghost var before := argv;
        if dashed in ShortSwitch() {
          argv := argv + ["-" + ShortSwitch()[dashed], value];
        } else if dashed in EqualRequired() {
          argv := argv + ["--" + dashed + "=" + value];
        } else {
          argv := argv + ["--" + dashed];
        }
        assert argv == before + OptionTokens(Tables(), dashed, value);
        SettingsAppend(attrs, defaultsChanged, i);
        ArgsFromAppend(Tables(), Settings(attrs, defaultsChanged[..i]), (dashed, value));
        i := i + 1;
      }
      assert defaultsChanged[..i] == defaultsChanged;
    }

    /** `straight()`, up to starting the process. `matches` is what
        difflib proposes for `find_code`. */
    method Straight(matches: Option<seq<string>>, os: OsPath) returns (out: AttackOutcome)
      requires Ready()
      ensures out == StraightOutcome(attrs, ArgsFor(attrs, defaultsChanged), HashCode(hashTypeDict, attrs["hash_type"], matches), os)
    {
      var args := BuildArgs();
      var code := HashCode(hashTypeDict, attrs["hash_type"], matches);
      var first := Subscript(attrs["words_files"], 0);
      if first.NotSubscriptable? {
        return RaisedTypeError;
      }
      if first.NoItem? {
        return ReturnedNone;
      }
      var argv := Tokens(args);
      argv := [first.value] + argv;
      argv := Prefix(code, "0", attrs["hash_file"]) + argv;
      var rules := Iterate(attrs["rules_files"]);
      if rules.None? {
        return RaisedTypeError;
      }
      assert argv == Prefix(code, "0", attrs["hash_file"]) + [first.value] + Tokens(args);
      out := AddRules(argv, rules.value, attrs["bin_dir"], os);
    }

    /** `combinator()`, up to starting the process. */
    method Combinator(matches: Option<seq<string>>) returns (out: AttackOutcome)
      requires Ready()
      ensures out == CombinatorOutcome(attrs, ArgsFor(attrs, defaultsChanged), HashCode(hashTypeDict, attrs["hash_type"], matches))
    {
      var args := BuildArgs();
      var code := HashCode(hashTypeDict, attrs["hash_type"], matches);
      var second := Subscript(attrs["words_files"], 1);
      if second.NotSubscriptable? {
        return RaisedTypeError;
      }
      if second.NoItem? {
        return ReturnedNone;
      }
      var argv := Tokens(args);
      argv := [second.value] + argv;
      argv := [Subscript(attrs["words_files"], 0).value] + argv;
      argv := Prefix(code, "1", attrs["hash_file"]) + argv;
      out := Launched(argv);
    }

    /** `brute_force()`, up to starting the process. */
    method BruteForce(matches: Option<seq<string>>) returns (out: AttackOutcome)
      requires Ready()
      ensures out == BruteForceOutcome(attrs, ArgsFor(attrs, defaultsChanged), HashCode(hashTypeDict, attrs["hash_type"], matches))
    {
      var args := BuildArgs();
      var code := HashCode(hashTypeDict, attrs["hash_type"], matches);
      var first := Subscript(attrs["words_files"], 0);
      if first.NotSubscriptable? {
        return RaisedTypeError;
      }
      if first.NoItem? {
        return ReturnedNone;
      }
      var argv := Tokens(args);
      argv := [first.value] + argv;
      argv := Prefix(code, "3", attrs["hash_file"]) + argv;
      out := Launched(argv);
    }

    /** `hybrid_dict_mask()`, up to starting the process. */
    method HybridDictMask(matches: Option<seq<string>>) returns (out: AttackOutcome)
      requires Ready()
      ensures out == HybridDictMaskOutcome(attrs, ArgsFor(attrs, defaultsChanged), HashCode(hashTypeDict, attrs["hash_type"], matches))
    {
      var args := BuildArgs();
      var code := HashCode(hashTypeDict, attrs["hash_type"], matches);
      var masksFile, maskAttr := attrs["masks_file"], attrs["mask"];
      if masksFile.VNone? && maskAttr.VNone? {
        return ReturnedNone;
      }
      var mask := if Truthy(masksFile) then masksFile else maskAttr;
      var argv := Tokens(args);
      argv := [mask] + argv;
      var first := Subscript(attrs["words_files"], 0);
      if first.NotSubscriptable? {
        return RaisedTypeError;
      }
      if first.NoItem? {
        return RaisedIndexError;
      }
      argv := [first.value] + argv;
      argv := Prefix(code, "6", attrs["hash_file"]) + argv;
      assert ChosenMask(masksFile, maskAttr) == Some(mask);
      assert argv == Prefix(code, "6", attrs["hash_file"]) + [first.value, mask] + Tokens(args);
      out := Launched(argv);
    }

    /** `hybrid_mask_dict()`, up to starting the process. */
    method HybridMaskDict(matches: Option<seq<string>>) returns (out: AttackOutcome)
      requires Ready()
      ensures out == HybridMaskDictOutcome(attrs, ArgsFor(attrs, defaultsChanged), HashCode(hashTypeDict, attrs["hash_type"], matches))
    {
      var args := BuildArgs();
      var code := HashCode(hashTypeDict, attrs["hash_type"], matches);
      var first := Subscript(attrs["words_files"], 0);
      if first.NotSubscriptable? {
        return RaisedTypeError;
      }
      if first.NoItem? {
        return ReturnedNone;
      }
      var argv := Tokens(args);
      argv := [first.value] + argv;
      var masksFile, maskAttr := attrs["masks_file"], attrs["mask"];
      if masksFile.VNone? && maskAttr.VNone? {
        return ReturnedNone;
      }
      var mask := if Truthy(masksFile) then masksFile else maskAttr;
      argv := [mask] + argv;
      argv := Prefix(code, "7", attrs["hash_file"]) + argv;
      assert ChosenMask(masksFile, maskAttr) == Some(mask);
      assert argv == Prefix(code, "7", attrs["hash_file"]) + [mask, first.value] + Tokens(args);
      out := Launched(argv);
    }
  }

  /** The command line of a constructed wrapper reads back as the options
      that were changed, each with its value unless it is a bare flag. */
  lemma BuildArgsReadsBack(attrs: map<string, PyValue>, changed: seq<string>)
    requires forall i :: 0 <= i < |changed| ==> changed[i] in attrs && '=' !in changed[i]
    ensures ParseArgs(Tables(), ArgsFor(attrs, changed)) == Kept(Tables(), Settings(attrs, changed))
  {
    TablesReadable();
    var opts := Settings(attrs, changed);
    forall i | 0 <= i < |opts|
      ensures '=' !in opts[i].0
    {
      assert opts[i].0 == Dashed(changed[i]);
    }
    ParseArgsFrom(Tables(), opts);
  }
}
