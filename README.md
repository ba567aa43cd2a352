# pyhashcat and HashcatWrapper, modelled in Dafny

This project models two Python front ends of the hashcat password cracker.

The first is the C extension `pyhashcat`. Its model covers:

- the process-wide callback table (`handlers[MAXH]`, `n_handlers`);
- `event_connect`, which registers a callback under a signal name;
- the engine callback `event()`, whose `switch` turns an engine event into a signal name;
- `event_dispatch`, which calls every handler registered under that name, in slot order;
- object creation, which clears every registered signal name;
- the typed getters and setters;
- `hashcat_session_execute`, which checks the inputs the attack mode needs, builds the engine's argv, copies the rules files in straight mode, initialises the engine session and starts the session thread.

The second is the pure-Python `oclHashcatWrapper` of pyHashcat 0.2. Its model covers:

- `__setattr__`, which records every option moved away from its default in `defaults_changed`;
- `reset`;
- `build_args`, which turns the recorded options into short switches, `--option=value` or bare `--option` tokens;
- the five attack methods, which put `-m code -a mode` and the positional inputs in front;
- the hash-type table with `find_code` and `str_from_code`;
- the parsing half of `get_hashes`;
- the command name chosen in `__init__`.

Modules:

- `Common`: `Option`, `Result`, and the string operations (`str()` of an int, `lower`, the C view of a string).
- `PyValues`: Python 2 values with `==` (where True equals 1) and `str()`.
- `Events`: the advertised `event_strs` list and the `switch` of `event()`.
- `Registry`: the handler table as a class over an array, with `Connect`, `Dispatch`, `Notify` and `ClearSignals`, specified by the function `Dispatched`.
- `Session`: the `hashcat` object as a class, with its setters, `Execute` and `NewHashcatObject`.
- `HashTypes`: `hash_type_dict`, `find_code`, the code an attack passes, and `str_from_code`.
- `Hashes`: `readlines`, `rstrip`, `rsplit`, `split`, `dict(zip(...))` and `get_hashes`.
- `Wrapper`: the option tables, `build_args` and a reader for its output, the `__setattr__` bookkeeping, and the attack outcomes. It also holds the class `OclHashcatWrapper`.

Facts of the code that the lemmas make explicit:

- The potfile "num cracked" event is dispatched under the name `EVENT_BITMAP_INIT_POST`.
- The advertised outer-loop start name ends in a blank, so a handler registered under it never fires.
- `remove_timer` is listed as `remove-time` in `cmd_equal_required`, so it is emitted as a bare `--remove-timer` and its value is lost.
- A short switch carries `str(value)`, so `benchmark` becomes `-b True`.
- An option moved back to its default stays in `defaults_changed`.

Where the project's design description and the code differ, the model follows the code:

- There is no `"ANY"` wildcard: a handler answers only its own name.
- `event_connect` returns None, not a subscription id.
- `execute` takes no paths: the engine gets `/usr/bin` and `/usr/local/share/hashcat`.
- `execute` has no benchmark case, and the C binding has no `reset`.
- Registration has no capacity check.

## Model

| member | source | states |
|---|---|---|
| Common.NatToString | pyHashcat-0.2/pyHashcat/HashcatWrapper.py:487 | `str()` of a non-negative int is at least one decimal digit, and exactly one digit iff the number is below 10 |
| Common.NatToStringInjective | pyHashcat-0.2/pyHashcat/HashcatWrapper.py:487 | distinct numbers print differently, so the field names "f0", "f1", ... never collide |
| Common.LowerIdempotent | pyHashcat-0.2/pyHashcat/HashcatWrapper.py:296 | lower-casing twice is lower-casing once |
| Common.LowerMatches | pyHashcat-0.2/pyHashcat/HashcatWrapper.py:296-308 | `gcard_type.lower() == "cuda"` holds exactly for the strings of the same length that are "cuda" with any letters capitalised |
| Common.CStr | pyhashcat/pyhashcat.c:4006-4043 | what C keeps of a Python string through `char *` is its prefix before the first NUL, and it contains no NUL |
| Common.CStrWithoutNul | pyhashcat/pyhashcat.c:4006-4043 | a string without NUL passes through a `char *` option unchanged |
| Common.ReplaceCharReversible | pyHashcat-0.2/pyHashcat/HashcatWrapper.py:878 | after `replace('_', '-')` no underscore is left, and for a name without dashes replacing back gives the name again, so the option token determines the attribute |
| PyValues.PyEqReflexive | pyHashcat-0.2/pyHashcat/HashcatWrapper.py:328 | every value `==` itself, so re-assigning a default is never recorded as a change |
| PyValues.PyEqOnScalars | pyHashcat-0.2/pyHashcat/HashcatWrapper.py:328 | on non-list values, `==` is identity except that a bool equals the int with the same integer value |
| PyValues.PyEq | pyHashcat-0.2/pyHashcat/HashcatWrapper.py:328 | the definition of Python 2 `==` on the modelled values: True equals 1 and False equals 0, lists compare item by item, objects by identity, and values of other different types are unequal |
| PyValues.Str | pyHashcat-0.2/pyHashcat/HashcatWrapper.py:877 | the definition of `str()`: the text of a string, decimal digits with a sign for an int, "True"/"False", "None", and a list shown as `[...]` with the `repr` of its items |
| PyValues.EscapedPlain | pyHashcat-0.2/pyHashcat/HashcatWrapper.py:877 | `repr` of a string whose characters are all printable, non-quote and non-backslash is the string itself between quotes |
| PyValues.StrIntInjective | pyHashcat-0.2/pyHashcat/HashcatWrapper.py:877 | two ints with the same `str()` are equal |
| Events.KnownEvents | pyhashcat/pyhashcat.c:55-109 | there are `N_EVENTS_TYPES` = 48 known events, one per position of `event_strs` |
| Events.EventStr | pyhashcat/pyhashcat.c:55-109 | the name at each position of `event_strs`, spelled as the array spells it, the trailing blank of the outer-loop start included |
| Events.EventName | pyhashcat/pyhashcat.c:198-243 | the `switch` of `event()`: the name each event with a case is dispatched under, and no name for the identifiers without a case |
| Events.FirstNamedSound | pyhashcat/pyhashcat.c:198-243 | a reverse lookup through the switch returns only an event of the list that is dispatched under the name |
| Events.FirstNamedComplete | pyhashcat/pyhashcat.c:198-243 | the reverse lookup finds an event whenever the list holds one dispatched under the name |
| Events.EventForExact | pyhashcat/pyhashcat.c:198-243 | a name has an event iff some event is dispatched under it, and that event is dispatched under the name |
| Events.EventForInvertsName | pyhashcat/pyhashcat.c:198-243 | round trip: the reverse lookup of every dispatched name yields an event dispatched under that name |
| Events.UnassignedIff | pyhashcat/pyhashcat.c:196-248 | `event()` dispatches nothing exactly for an identifier without a case: the autotune events, the inner-loop events and unknown identifiers |
| Events.PotfileNumCrackedAliasesBitmap | pyhashcat/pyhashcat.c:233 | the potfile "num cracked" event is dispatched as "EVENT_BITMAP_INIT_POST", and no event is ever dispatched as "EVENT_POTFILE_NUM_CRACKED" |
| Events.DispatchedUnderOwnName | pyhashcat/pyhashcat.c:198-243 | an event with a case is dispatched under its own advertised spelling iff it is neither the potfile "num cracked" event nor the outer-loop start |
| Events.DispatchedNameAdvertised | pyhashcat/pyhashcat.c:91 | every dispatched name is in `event_types` except "EVENT_OUTERLOOP_STARTING", whose advertised spelling ends in a blank |
| Events.SilentNamesNeverFire | pyhashcat/pyhashcat.c:55-105 | no event is ever dispatched under the names at the eight silent positions of `event_strs` |
| Events.AdvertisedNamesThatFire | pyhashcat/pyhashcat.c:55-105 | a known event is dispatched under its own advertised name iff its position is not silent |
| Registry.EffectOf | pyhashcat/pyhashcat.c:164-181 | a matching slot calls its callback with the recorded owner, or warns when the callback is not callable; the effect names the slot |
| Registry.Dispatched | pyhashcat/pyhashcat.c:151-189 | the specification of a dispatch: the effects of the registered slots whose signal name equals the event's name, in slot order |
| Registry.DispatchAppend | pyhashcat/pyhashcat.c:157-187 | dispatching over one more slot appends exactly that slot's effect |
| Registry.DispatchSound | pyhashcat/pyhashcat.c:151-189 | every effect of a dispatch belongs to a registered slot whose name matches and is what that slot calls for; effects come in strictly increasing slot order, so each slot fires at most once |
| Registry.DispatchComplete | pyhashcat/pyhashcat.c:151-189 | every registered slot whose name matches has an effect: no subscriber is skipped |
| Registry.SilencedDispatchesNothing | pyhashcat/pyhashcat.c:159 | a slot with a NULL signal name never fires, so a cleared table dispatches nothing |
| Registry.DuplicateRegistrationFiresTwice | pyhashcat/pyhashcat.c:139-142 | registering the same callable twice under one name calls it twice, from two consecutive slots |
| Registry.NoWildcard | pyhashcat/pyhashcat.c:161 | a handler registered under "ANY" answers exactly the name "ANY", and no event is dispatched under it |
| Registry.HandlerTable.constructor | pyhashcat/pyhashcat.c:110-111 | the static table starts with no handlers |
| Registry.HandlerTable.Connect | pyhashcat/pyhashcat.c:116-148 | a bad argument list raises and registers nothing; a non-callable raises TypeError "parameter must be callable" and registers nothing; otherwise it returns None and appends exactly (owner, callback, name) |
| Registry.HandlerTable.Dispatch | pyhashcat/pyhashcat.c:151-189 | the effects of the loop over all registered slots equal `Dispatched` of the table |
| Registry.HandlerTable.Notify | pyhashcat/pyhashcat.c:192-251 | an event without a case does nothing; any other event is dispatched under the name the switch gives it |
| Registry.HandlerTable.ClearSignals | pyhashcat/pyhashcat.c:284-289 | after the loop the table is the old table with every signal name cleared; the count is unchanged |
| Registry.ClearedTableIsDeaf | pyhashcat/pyhashcat.c:284-289 | once a new object has cleared the table, no engine event reaches any earlier handler |
| Registry.PotfileEventReachesBitmapSubscribers | pyhashcat/pyhashcat.c:233 | the potfile "num cracked" event reaches exactly the subscribers of "EVENT_BITMAP_INIT_POST", with the same effects |
| Registry.AdvertisedOuterloopNameIsDeaf | pyhashcat/pyhashcat.c:91 | a handler registered under the advertised outer-loop start name never matches the outer-loop start event |
| Session.Coerce | pyhashcat/pyhashcat.c:1208-4570 | a setter accepts a value iff it passes its type check (an int option also takes a bool), stores a value of the attribute's kind, and otherwise raises "Cannot delete ..." or "... must be a <type>" |
| Session.Int32 | pyhashcat/pyhashcat.c:1372 | what a C `int` keeps of a stored long: the one value in the 32-bit range congruent to it modulo 2^32, which is the value itself when it is in that range |
| Session.SetThenGet | pyhashcat/pyhashcat.c:1208-4570 | reading back an accepted value: object fields and bools give it back, `char *` options give it up to the first NUL, int options give True/False as 1/0, and the separator keeps its first character (NUL for "") |
| Session.IntReadBackWraps | pyhashcat/pyhashcat.c:1368-1398 | `gpu_temp_abort = 2**31` is accepted and reads back as -2147483648 |
| Session.LongRefused | pyhashcat/pyhashcat.c:1380-1398 | a Python long such as `2**64` fails `PyInt_Check`, so the setter raises "The attack_mode attribute value must be a int" |
| Session.KindOf | pyhashcat/pyhashcat.c:4644-4732 | the getset table: which attributes exist and whether each is an object field, a `char *` option, an int, a bool or the separator character |
| Session.Layout | pyhashcat/pyhashcat.c:384-525 | the inputs each attack mode puts in argv: mode 0 hash and dict1, mode 1 hash, dict1 and dict2, mode 3 hash and mask, mode 6 hash, dict1 and mask, mode 7 hash, mask and dict1; no layout for any other mode |
| Session.PlanArgv | pyhashcat/pyhashcat.c:376-525 | the checks of `execute` in source order, giving either the error it sets or the argv it builds |
| Session.PlanFollowsLayout | pyhashcat/pyhashcat.c:369-525 | `execute` builds an argv iff the mode is 0, 1, 3, 6 or 7 and every input that mode's layout needs is set, and the argv is those inputs in layout order |
| Session.PlanErrors | pyhashcat/pyhashcat.c:376-525 | which error is reported: a missing hash first, then an invalid mode, then a missing dictionary before a missing mask |
| Session.OverlayLookup | pyhashcat/pyhashcat.c:407-412 | after the rules copy, the first entries of `rp_files` are the C strings of the items in order (NULL for an item that is not a string), and every later entry is unchanged |
| Session.RulesCopyCases | pyhashcat/pyhashcat.c:407-412 | a tuple of rules files copies nothing, because `PyList_Size` answers -1 for it; in a list, a string without NUL is copied whole and any other item is stored as NULL |
| Session.ArgvBufferReadsBack | pyhashcat/pyhashcat.c:398-405 | the stored argv has its only NULL right after the arguments, and each entry is the NUL-free prefix of its argument, the whole argument when it holds no NUL |
| Session.HashcatSession.constructor | pyhashcat/pyhashcat.c:291-306 | a new object has no inputs, an empty `rules` list, argc 0, the engine's default options, `event_types` equal to the tuple of `event_strs`, and no session init call yet |
| Session.HashcatSession.SetRules | pyhashcat/pyhashcat.c:4739 | the `rules` member takes any object, or NULL when deleted, and nothing else changes |
| Session.HashcatSession.SetEventTypes | pyhashcat/pyhashcat.c:4740 | the `event_types` member takes any object, or NULL when deleted, and nothing else changes |
| Session.HashcatSession.SetAttribute | pyhashcat/pyhashcat.c:1208-4570 | on a type error nothing changes; otherwise exactly the named attribute takes the converted value (an int as the C long it is), every other attribute keeps its value, and the members, argv, rules files and init record are untouched |
| Session.HashcatSession.Execute | pyhashcat/pyhashcat.c:369-553 | the mode switched on is the low 32 bits of the stored long; a failed check sets the error and changes nothing, and `hashcat_session_init` is not called; otherwise argc/argv are the planned ones, straight mode overlays the `rules` items onto `rp_files`, init is called exactly once, and the outcome is the engine's log message when it fails, else the thread's return code |
| Session.HashcatSession.CopyRules | pyhashcat/pyhashcat.c:407-412 | the loop stores, for each item of a `rules` list, its C string or NULL, over the old `rp_files`; anything but a list copies nothing; nothing else changes |
| Session.NewHashcatObject | pyhashcat/pyhashcat.c:254-309 | when init fails no object is made and the table is untouched; otherwise every signal name in the table is cleared (owners, callbacks and count kept) and a fresh object is returned with an empty `rules` list, `event_types` from `event_strs` and no init call |
| HashTypes.FirstWithCodeSpec | pyHashcat-0.2/pyHashcat/HashcatWrapper.py:855-865 | the reverse lookup returns the first key in iteration order whose code matches, skipping only non-matching keys, and "UNKNOWN" only when no key matches |
| HashTypes.FirstWithCode | pyHashcat-0.2/pyHashcat/HashcatWrapper.py:857-865 | the reverse lookup as a function of an iteration order: the first key whose code is the wanted one, else "UNKNOWN" |
| HashTypes.HashCode | pyHashcat-0.2/pyHashcat/HashcatWrapper.py:581-585 | the code an attack passes: `hash_type` itself when it is one of the table's codes, else what `find_code` returns |
| HashTypes.UniqueCodeOrderFree | pyHashcat-0.2/pyHashcat/HashcatWrapper.py:857-862 | when at most one name carries the code, every iteration order gives the same answer |
| HashTypes.StrFromCode | pyHashcat-0.2/pyHashcat/HashcatWrapper.py:855-865 | the loop returns the first name, in the dict's iteration order, whose code equals `str(code).lower()`, else "UNKNOWN" |
| HashTypes.FindCode | pyHashcat-0.2/pyHashcat/HashcatWrapper.py:843-853 | `find_code` returns a code string of the table iff difflib proposes a name and the first proposal is a key; otherwise it returns the int 0 |
| HashTypes.InValuesIff | pyHashcat-0.2/pyHashcat/HashcatWrapper.py:581 | `hash_type in hash_type_dict.values()` holds exactly for a string equal to a code, so an int such as 400 is not among them |
| HashTypes.ModeTokenIsKnownCode | pyHashcat-0.2/pyHashcat/HashcatWrapper.py:581-585 | the token after "-m" always prints as one of the table's codes, provided "0" is one |
| HashTypes.FallbackIsMD5 | pyHashcat-0.2/pyHashcat/HashcatWrapper.py:82 | in `hash_type_dict` the fallback 0 is the code of MD5 and is one of the codes |
| HashTypes.PhpassAndWordpressShare400 | pyHashcat-0.2/pyHashcat/HashcatWrapper.py:98-99 | "phpass" and "MD5(Wordpress)" both have code "400" |
| HashTypes.SharedCodeDependsOnOrder | pyHashcat-0.2/pyHashcat/HashcatWrapper.py:857-862 | for a shared code such as 400 the answer is whichever name the dict iteration meets first |
| Hashes.ReadLinesConcat | pyHashcat-0.2/pyHashcat/HashcatWrapper.py:482 | the lines `readlines` returns, concatenated, give the file back |
| Hashes.ReadLinesShape | pyHashcat-0.2/pyHashcat/HashcatWrapper.py:482 | every line is non-empty, has no '\n' before its end, and ends in '\n' unless it is the last line |
| Hashes.ReadLines | pyHashcat-0.2/pyHashcat/HashcatWrapper.py:482 | the definition of `readlines()`: the file cut after every '\n', with the rest as a last line when it is not empty |
| Hashes.RStripLineBreaks | pyHashcat-0.2/pyHashcat/HashcatWrapper.py:482 | `rstrip('\n\r')` returns a prefix that does not end in CR or LF and removes only CR and LF |
| Hashes.LastIndex | pyHashcat-0.2/pyHashcat/HashcatWrapper.py:482 | the cut point of `rsplit` is an occurrence of the separator with none after it, or none when the separator does not occur |
| Hashes.RSplit | pyHashcat-0.2/pyHashcat/HashcatWrapper.py:482 | the definition of `rsplit(sep)`: the line cut at every non-overlapping occurrence of `sep`, found from the right |
| Hashes.RSplitJoin | pyHashcat-0.2/pyHashcat/HashcatWrapper.py:482 | joining the pieces of `rsplit(sep)` with `sep` gives the line back |
| Hashes.RSplitPiecesFree | pyHashcat-0.2/pyHashcat/HashcatWrapper.py:482 | no piece of `rsplit(sep)` contains the separator |
| Hashes.SplitWhitespaceSpec | pyHashcat-0.2/pyHashcat/HashcatWrapper.py:482 | `rsplit(None)` gives non-empty blank-free words which together are exactly the line's non-blank characters |
| Hashes.SplitWhitespace | pyHashcat-0.2/pyHashcat/HashcatWrapper.py:482 | the definition of `rsplit(None)`: the runs of non-whitespace characters, in order |
| Hashes.DefaultFieldsDistinct | pyHashcat-0.2/pyHashcat/HashcatWrapper.py:487 | the default field names are pairwise distinct |
| Hashes.ZipDictLookup | pyHashcat-0.2/pyHashcat/HashcatWrapper.py:494 | in `dict(zip(fields, record))` a name maps to the value paired with its last occurrence |
| Hashes.ZipDictKeys | pyHashcat-0.2/pyHashcat/HashcatWrapper.py:494 | the dict's keys are exactly the names paired with a value, up to the shorter of the two lists |
| Hashes.ZipDictDistinct | pyHashcat-0.2/pyHashcat/HashcatWrapper.py:494 | with distinct names, every paired name maps to its own value |
| Hashes.ZipDict | pyHashcat-0.2/pyHashcat/HashcatWrapper.py:494 | the definition of `dict(zip(fields, record))`: pairs up to the shorter list, a later pair overriding an earlier one with the same name |
| Hashes.FieldsFor | pyHashcat-0.2/pyHashcat/HashcatWrapper.py:484-487 | the names used have one entry per piece of the first record: the caller's names, or the default ones |
| Hashes.GetHashesDefaultNames | pyHashcat-0.2/pyHashcat/HashcatWrapper.py:464-494 | a readable non-empty file gives one dict per line; when the caller's names do not fit, the first dict maps "f0", "f1", ... to its pieces in order, and those pieces joined by the separator give the stripped line |
| Hashes.GetHashesGivenNames | pyHashcat-0.2/pyHashcat/HashcatWrapper.py:489-494 | distinct caller names that fit the first record map to its pieces in order |
| Hashes.GetHashes | pyHashcat-0.2/pyHashcat/HashcatWrapper.py:464-502 | the definition of `get_hashes`: the path or the outfile, None when both are missing, TypeError for a path `open` refuses, `[{}]` on IOError or an empty file, ValueError for an empty separator and TypeError for one that is not a string, else one dict per line |
| Hashes.GetHashesEdgeCases | pyHashcat-0.2/pyHashcat/HashcatWrapper.py:466-502 | no path and no outfile returns None; a path that is not a string or holds a NUL raises the TypeError of `open`, which `except IOError` does not catch; an unreadable or empty file returns `[{}]` |
| Hashes.GetHashesEmptySeparator | pyHashcat-0.2/pyHashcat/HashcatWrapper.py:474-482 | the separator falls back to the `separator` attribute, and an empty one raises ValueError once there is a line |
| Wrapper.CommandNameInjective | pyHashcat-0.2/pyHashcat/HashcatWrapper.py:282-316 | the command name determines the word size, whether the system is Windows, and CUDA versus OpenCL |
| Wrapper.CommandName | pyHashcat-0.2/pyHashcat/HashcatWrapper.py:282-316 | the command `__init__` picks: cuda or ocl by `gcard_type.lower()`, 64 or 32 bits by `sys.maxsize`, and "...Hashcat<bits> " on Windows, "./...Hashcat<bits>.bin" elsewhere |
| Wrapper.ResetValues | pyHashcat-0.2/pyHashcat/HashcatWrapper.py:339-412 | the 74 attributes `reset` assigns, with their values |
| Wrapper.ShortSwitch | pyHashcat-0.2/pyHashcat/HashcatWrapper.py:208-234 | the table `cmd_short_switch`, entry for entry |
| Wrapper.EqualRequired | pyHashcat-0.2/pyHashcat/HashcatWrapper.py:236-258 | the list `cmd_equal_required`, its "remove-time" entry included |
| Wrapper.IgnoreVars | pyHashcat-0.2/pyHashcat/HashcatWrapper.py:260-270 | the list `ignore_vars` |
| Wrapper.OptionTokens | pyHashcat-0.2/pyHashcat/HashcatWrapper.py:878-893 | the tokens of one option: the short switch and `str(value)`, else `--option=value` for an option in `cmd_equal_required`, else a bare `--option` |
| Wrapper.ArgsFor | pyHashcat-0.2/pyHashcat/HashcatWrapper.py:868-895 | the specification of `build_args`: the tokens of every listed option, in list order |
| Wrapper.Track | pyHashcat-0.2/pyHashcat/HashcatWrapper.py:325-335 | the change list after one assignment: the name appended exactly when it has a default, the value is not `==` to it, and it is not ignored |
| Wrapper.ArgsFromAppend | pyHashcat-0.2/pyHashcat/HashcatWrapper.py:875-894 | one more recorded option appends exactly that option's tokens |
| Wrapper.TablesReadable | pyHashcat-0.2/pyHashcat/HashcatWrapper.py:208-258 | the switch tables can be read back: one distinct non-dash letter per short option, and no '=' in an `=`-option |
| Wrapper.ShortLettersReadable | pyHashcat-0.2/pyHashcat/HashcatWrapper.py:208-234 | every short switch is one letter other than '-' |
| Wrapper.EqualRequiredReadable | pyHashcat-0.2/pyHashcat/HashcatWrapper.py:236-258 | no name in `cmd_equal_required` contains '=' |
| Wrapper.LetterInvertible | pyHashcat-0.2/pyHashcat/HashcatWrapper.py:208-234 | each short option's letter maps back to that option |
| Wrapper.ShortLettersDistinct | pyHashcat-0.2/pyHashcat/HashcatWrapper.py:208-234 | no two options share a short letter |
| Wrapper.ParseShortStep | pyHashcat-0.2/pyHashcat/HashcatWrapper.py:880-885 | a short switch followed by its value reads back as that option with that value |
| Wrapper.ParseEqualStep | pyHashcat-0.2/pyHashcat/HashcatWrapper.py:889-890 | `--option=value` reads back as that option with that value |
| Wrapper.ParseBareStep | pyHashcat-0.2/pyHashcat/HashcatWrapper.py:892-893 | a bare `--option` reads back as that option with no value |
| Wrapper.ParseArgsFrom | pyHashcat-0.2/pyHashcat/HashcatWrapper.py:875-895 | with readable tables, parsing the tokens gives every option in order, with its value exactly when it is a short or `=`-option |
| Wrapper.BuildArgsReadsBack | pyHashcat-0.2/pyHashcat/HashcatWrapper.py:868-895 | `build_args` output parses back as the recorded options, each with its `str()` value unless it is a bare flag |
| Wrapper.RevertedOptionStaysListed | pyHashcat-0.2/pyHashcat/HashcatWrapper.py:325-335 | moving an option away from its default and back leaves it listed once |
| Wrapper.RepeatedChangeListedTwice | pyHashcat-0.2/pyHashcat/HashcatWrapper.py:325-335 | two non-default assignments in a row list the option twice |
| Wrapper.BoolAndIntAlike | pyHashcat-0.2/pyHashcat/HashcatWrapper.py:328 | assigning 0 where the default is False, or 1 where it is True, is not recorded |
| Wrapper.NothingTrackedAtDefaults | pyHashcat-0.2/pyHashcat/HashcatWrapper.py:414-415 | while every attribute holds its default, no assignment of that same value is recorded |
| Wrapper.RemoveTimerLosesValue | pyHashcat-0.2/pyHashcat/HashcatWrapper.py:245 | `remove_timer` is emitted as the bare token "--remove-timer" whatever its value |
| Wrapper.ShortSwitchShowsBool | pyHashcat-0.2/pyHashcat/HashcatWrapper.py:880-885 | a changed `benchmark` becomes "-b", "True" |
| Wrapper.ResetProvidesInputs | pyHashcat-0.2/pyHashcat/HashcatWrapper.py:339-343 | after `reset` every attribute the attack methods read is present, except `bin_dir` |
| Wrapper.Subscript | pyHashcat-0.2/pyHashcat/HashcatWrapper.py:588 | `v[i]` yields an item iff v is a list or string long enough, and raises TypeError iff v is neither |
| Wrapper.Resolve | pyHashcat-0.2/pyHashcat/HashcatWrapper.py:604 | a rules entry fails exactly when it is not a string, or is relative while `bin_dir` is not a string, and then `os.path` raises AttributeError |
| Wrapper.RuleArgs | pyHashcat-0.2/pyHashcat/HashcatWrapper.py:604-611 | one entry adds "-r" and its path when the file exists and nothing otherwise; it raises AttributeError or, for a path holding a NUL, TypeError |
| Wrapper.RulesArgs | pyHashcat-0.2/pyHashcat/HashcatWrapper.py:602-616 | the rules tokens, or the exception of the first entry that raises, which is always AttributeError or TypeError |
| Wrapper.RulesArgsErrSticks | pyHashcat-0.2/pyHashcat/HashcatWrapper.py:602-616 | once an entry has raised, the later entries change nothing |
| Wrapper.RulesArgsOkIff | pyHashcat-0.2/pyHashcat/HashcatWrapper.py:602-616 | the rules loop finishes iff no entry raises |
| Wrapper.RulesArgsFirstError | pyHashcat-0.2/pyHashcat/HashcatWrapper.py:602-616 | a raised exception is that of an entry all of whose predecessors went through |
| Wrapper.RulesArgsPairs | pyHashcat-0.2/pyHashcat/HashcatWrapper.py:602-616 | when the loop finishes, its tokens are "-r" + path pairs, each path an existing file |
| Wrapper.RulesArgsComplete | pyHashcat-0.2/pyHashcat/HashcatWrapper.py:602-616 | when the loop finishes, every entry that resolves to an existing file is passed |
| Wrapper.AddRules | pyHashcat-0.2/pyHashcat/HashcatWrapper.py:602-616 | the loop appends exactly `RulesArgs` of the rules files to argv, or returns the exception `RulesArgs` raises |
| Wrapper.StraightFollowsEngineLayout | pyHashcat-0.2/pyHashcat/HashcatWrapper.py:577-627 | a straight launch is "-m", a table code, "-a", "0", then hash file and first word file as the C `execute` lays out mode 0, then the option tokens |
| Wrapper.CombinatorFollowsEngineLayout | pyHashcat-0.2/pyHashcat/HashcatWrapper.py:629-660 | a combinator launch follows mode 1's layout: hash file, first and second word files, then the option tokens |
| Wrapper.BruteForceFollowsEngineLayout | pyHashcat-0.2/pyHashcat/HashcatWrapper.py:662-692 | a brute-force launch follows mode 3's layout with `words_files[0]` in the mask position |
| Wrapper.HybridDictMaskFollowsEngineLayout | pyHashcat-0.2/pyHashcat/HashcatWrapper.py:694-735 | a mode 6 launch is hash file, first word file, chosen mask, then the option tokens |
| Wrapper.HybridMaskDictFollowsEngineLayout | pyHashcat-0.2/pyHashcat/HashcatWrapper.py:737-778 | a mode 7 launch is hash file, chosen mask, first word file, then the option tokens |
| Wrapper.StraightOutcome | pyHashcat-0.2/pyHashcat/HashcatWrapper.py:577-627 | `straight()`: TypeError or None from `words_files[0]`, TypeError for non-iterable rules, an entry's exception from the rules loop, else a mode 0 launch with the rules pairs last |
| Wrapper.CombinatorOutcome | pyHashcat-0.2/pyHashcat/HashcatWrapper.py:629-660 | `combinator()`: TypeError or None from `words_files[1]`, else a mode 1 launch |
| Wrapper.BruteForceOutcome | pyHashcat-0.2/pyHashcat/HashcatWrapper.py:662-692 | `brute_force()`: TypeError or None from `words_files[0]`, else a mode 3 launch |
| Wrapper.HybridDictMaskOutcome | pyHashcat-0.2/pyHashcat/HashcatWrapper.py:694-735 | `hybrid_dict_mask()`: None without a mask, then TypeError or IndexError from `words_files[0]`, else a mode 6 launch |
| Wrapper.HybridMaskDictOutcome | pyHashcat-0.2/pyHashcat/HashcatWrapper.py:737-778 | `hybrid_mask_dict()`: TypeError or None from `words_files[0]`, then None without a mask, else a mode 7 launch |
| Wrapper.ConstructorNamesNotReset | pyHashcat-0.2/pyHashcat/HashcatWrapper.py:272-277 | `verbose`, `restore_struct`, `bin_dir` and `cmd` are not among the attributes `reset` assigns |
| Wrapper.OclHashcatWrapper.constructor | pyHashcat-0.2/pyHashcat/HashcatWrapper.py:272-316 | a new wrapper holds `hash_type_dict`, the reset values with `verbose`, `restore_struct`, `bin_dir` and `cmd`; its defaults are the reset values with `verbose`; nothing is listed as changed |
| Wrapper.OclHashcatWrapper.Init | pyHashcat-0.2/pyHashcat/HashcatWrapper.py:274-316 | the statements of `__init__` give the attributes and defaults above and leave every attack input present |
| Wrapper.OclHashcatWrapper.SetAttr | pyHashcat-0.2/pyHashcat/HashcatWrapper.py:325-335 | the attribute is always set; its name is appended iff it has a default, the value is not `==` to it, and it is not ignored |
| Wrapper.OclHashcatWrapper.Reset | pyHashcat-0.2/pyHashcat/HashcatWrapper.py:337-417 | every reset value is assigned, the defaults snapshot all attributes but `restore_struct`, and the change list is emptied |
| Wrapper.OclHashcatWrapper.BuildArgs | pyHashcat-0.2/pyHashcat/HashcatWrapper.py:868-895 | the loop returns the tokens of every listed option in list order, each with its value's `str()` |
| Wrapper.OclHashcatWrapper.Straight | pyHashcat-0.2/pyHashcat/HashcatWrapper.py:577-627 | the method's outcome is `StraightOutcome` of its attributes, the `build_args` tokens and the hash code |
| Wrapper.OclHashcatWrapper.Combinator | pyHashcat-0.2/pyHashcat/HashcatWrapper.py:629-660 | the outcome of `combinator()`: None without a second word file, else a mode 1 launch |
| Wrapper.OclHashcatWrapper.BruteForce | pyHashcat-0.2/pyHashcat/HashcatWrapper.py:662-692 | the outcome of `brute_force()`: None without a word file, else a mode 3 launch |
| Wrapper.OclHashcatWrapper.HybridDictMask | pyHashcat-0.2/pyHashcat/HashcatWrapper.py:694-735 | the outcome of `hybrid_dict_mask()`: None without a mask, IndexError without a word file, else a mode 6 launch |
| Wrapper.OclHashcatWrapper.HybridMaskDict | pyHashcat-0.2/pyHashcat/HashcatWrapper.py:737-778 | the outcome of `hybrid_mask_dict()`: None without a word file or a mask, else a mode 7 launch |

## Left out

- Engine event identifiers: their numeric values are defined in the engine's headers, which are not part of this model. An event the binding knows is named by the position of its name in `event_strs`.
- Registry.HandlerTable.Connect: requires a free slot. With 100 handlers registered, the source writes past the static array; that undefined behaviour is not modelled.
- Registry.HandlerTable.Dispatch: the callback itself is not run. Whether it is callable is a parameter, and so is whether it raises, asked slot by slot so that one callable registered twice can fail once and succeed once; the GIL and the error printing are recorded, not performed.
- Reference counting, memory allocation failures (`malloc`/`PyObject_New` returning NULL) and the `asprintf`/`free` of the dispatched name are left out.
- Session.HashcatSession.Execute: the engine is a parameter (`hashcat_session_init`'s return code, its last log message, the return code of `pthread_create`). The session thread and everything the engine does are left out.
- Session.HashcatSession.Execute: requires that a straight attack does not find the `rules` member deleted. The source then calls `PyList_Size` on NULL, which does not return.
- Session.HashcatSession.Execute: the copy loop can leave an exception set (SystemError when `rules` is not a list, TypeError for an item that is not a string) while `execute` carries on. That pending exception is not part of the outcome.
- Session.HashcatSession.SetAttribute: an int option is stored as the C long `PyInt_AsLong` gives. What the engine's own field keeps of it is not modelled, except for `attack_mode`, whose low 32 bits `execute` switches on, and the getters, which return the low 32 bits.
- PyValues.Str: the characters of a Python 2 `str` are bytes. The model's `string` does not restrict them to 0-255, and `repr` escapes a character above 255 by its low byte. `unicode` objects are not modelled.
- The C getters and setters are modelled as one kind table rather than one function per attribute. The engine-side control calls (pause, resume, bypass, checkpoint, quit, status getters) are left out as engine pass-throughs.
- `os.path` (`isabs`, `join`, `isfile`), `difflib.get_close_matches`, `sys.maxsize`, `platform.system()` and file contents are parameters, and the `print` lines under `verbose` are left out.
- Wrapper.Resolve: the exception raised for a rules entry or `bin_dir` that is not a string is the AttributeError of `posixpath`; the Windows `ntpath` raises differently, and that difference is not modelled.
- Starting hashcat with `Popen`, `get_RTCODE`, `test`, the output threads, `stop`, and the restore-file reading are left out. An attack method's result is the argv it would launch, not the process exit code.
- HashTypes.StrFromCode: Python's dict iteration order is a parameter (any order of the keys), because the language version in use does not fix it.
- The tables (`hash_type_dict`, `cmd_short_switch`, `cmd_equal_required`, `ignore_vars`) are constants. The source's class attributes could be reassigned, and that is not modelled.
- `defaults` and `defaults_changed` are also class attributes (an empty dict and a shared list). The model starts from an empty instance. This behaves the same in `__init__`, because `verbose` is assigned while `defaults` is still empty, and `reset` then gives the instance its own copies.
- Hashes.GetHashes: the file system is a parameter giving a path's contents, None when opening or reading raises IOError. A path that is not a string or holds a NUL raises TypeError before the file system is asked.
- `RestoreStruct` is an opaque object (`VObject`).
