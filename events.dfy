/** The engine's event identifiers, the signal names the binding advertises
    in `event_types`, and the closed `switch` in `event()` that turns an
    identifier into the name that is dispatched. */
module Events {
  import opened Common

  /** `N_EVENTS_TYPES`: the length of the advertised list. */
  const NEventTypes := 48

  /** A position in the advertised list. */
  type EventIndex = i: nat | i < NEventTypes

  /** An engine event identifier. The numeric values live in the engine's
      headers, which are not part of this model: an event the binding knows
      of is named by the position of its name in `event_strs`, and
      `Unlisted` stands for any other identifier the engine may emit. */
  datatype EngineEvent = Known(index: EventIndex) | Unlisted(code: nat)

  /** The events the lemmas below single out. */
  const BitmapInitPost := Known(2)
  const OuterloopStarting := Known(35)
  const PotfileNumCracked := Known(39)

  /** The spellings of the engine events, as the C source writes them. */
  const EVENT_AUTOTUNE_FINISHED: string := "EVENT_AUTOTUNE_FINISHED"
  const EVENT_AUTOTUNE_STARTING: string := "EVENT_AUTOTUNE_STARTING"
  const EVENT_BITMAP_INIT_POST: string := "EVENT_BITMAP_INIT_POST"
  const EVENT_BITMAP_INIT_PRE: string := "EVENT_BITMAP_INIT_PRE"
  const EVENT_CALCULATED_WORDS_BASE: string := "EVENT_CALCULATED_WORDS_BASE"
  const EVENT_CRACKER_FINISHED: string := "EVENT_CRACKER_FINISHED"
  const EVENT_CRACKER_HASH_CRACKED: string := "EVENT_CRACKER_HASH_CRACKED"
  const EVENT_CRACKER_STARTING: string := "EVENT_CRACKER_STARTING"
  const EVENT_HASHLIST_COUNT_LINES_POST: string := "EVENT_HASHLIST_COUNT_LINES_POST"
  const EVENT_HASHLIST_COUNT_LINES_PRE: string := "EVENT_HASHLIST_COUNT_LINES_PRE"
  const EVENT_HASHLIST_PARSE_HASH: string := "EVENT_HASHLIST_PARSE_HASH"
  const EVENT_HASHLIST_SORT_HASH_POST: string := "EVENT_HASHLIST_SORT_HASH_POST"
  const EVENT_HASHLIST_SORT_HASH_PRE: string := "EVENT_HASHLIST_SORT_HASH_PRE"
  const EVENT_HASHLIST_SORT_SALT_POST: string := "EVENT_HASHLIST_SORT_SALT_POST"
  const EVENT_HASHLIST_SORT_SALT_PRE: string := "EVENT_HASHLIST_SORT_SALT_PRE"
  const EVENT_HASHLIST_UNIQUE_HASH_POST: string := "EVENT_HASHLIST_UNIQUE_HASH_POST"
  const EVENT_HASHLIST_UNIQUE_HASH_PRE: string := "EVENT_HASHLIST_UNIQUE_HASH_PRE"
  const EVENT_INNERLOOP1_FINISHED: string := "EVENT_INNERLOOP1_FINISHED"
  const EVENT_INNERLOOP1_STARTING: string := "EVENT_INNERLOOP1_STARTING"
  const EVENT_INNERLOOP2_FINISHED: string := "EVENT_INNERLOOP2_FINISHED"
  const EVENT_INNERLOOP2_STARTING: string := "EVENT_INNERLOOP2_STARTING"
  const EVENT_LOG_ERROR: string := "EVENT_LOG_ERROR"
  const EVENT_LOG_INFO: string := "EVENT_LOG_INFO"
  const EVENT_LOG_WARNING: string := "EVENT_LOG_WARNING"
  const EVENT_MONITOR_RUNTIME_LIMIT: string := "EVENT_MONITOR_RUNTIME_LIMIT"
  const EVENT_MONITOR_STATUS_REFRESH: string := "EVENT_MONITOR_STATUS_REFRESH"
  const EVENT_MONITOR_TEMP_ABORT: string := "EVENT_MONITOR_TEMP_ABORT"
  const EVENT_MONITOR_THROTTLE1: string := "EVENT_MONITOR_THROTTLE1"
  const EVENT_MONITOR_THROTTLE2: string := "EVENT_MONITOR_THROTTLE2"
  const EVENT_MONITOR_THROTTLE3: string := "EVENT_MONITOR_THROTTLE3"
  const EVENT_MONITOR_PERFORMANCE_HINT: string := "EVENT_MONITOR_PERFORMANCE_HINT"
  const EVENT_OPENCL_SESSION_POST: string := "EVENT_OPENCL_SESSION_POST"
  const EVENT_OPENCL_SESSION_PRE: string := "EVENT_OPENCL_SESSION_PRE"
  const EVENT_OUTERLOOP_FINISHED: string := "EVENT_OUTERLOOP_FINISHED"
  const EVENT_OUTERLOOP_MAINSCREEN: string := "EVENT_OUTERLOOP_MAINSCREEN"
  const EVENT_OUTERLOOP_STARTING_BLANK: string := "EVENT_OUTERLOOP_STARTING "
  const EVENT_POTFILE_ALL_CRACKED: string := "EVENT_POTFILE_ALL_CRACKED"
  const EVENT_POTFILE_HASH_LEFT: string := "EVENT_POTFILE_HASH_LEFT"
  const EVENT_POTFILE_HASH_SHOW: string := "EVENT_POTFILE_HASH_SHOW"
  const EVENT_POTFILE_NUM_CRACKED: string := "EVENT_POTFILE_NUM_CRACKED"
  const EVENT_POTFILE_REMOVE_PARSE_POST: string := "EVENT_POTFILE_REMOVE_PARSE_POST"
  const EVENT_POTFILE_REMOVE_PARSE_PRE: string := "EVENT_POTFILE_REMOVE_PARSE_PRE"
  const EVENT_SET_KERNEL_POWER_FINAL: string := "EVENT_SET_KERNEL_POWER_FINAL"
  const EVENT_WEAK_HASH_POST: string := "EVENT_WEAK_HASH_POST"
  const EVENT_WEAK_HASH_PRE: string := "EVENT_WEAK_HASH_PRE"
  const EVENT_WEAK_HASH_ALL_CRACKED: string := "EVENT_WEAK_HASH_ALL_CRACKED"
  const EVENT_WORDLIST_CACHE_GENERATE: string := "EVENT_WORDLIST_CACHE_GENERATE"
  const EVENT_WORDLIST_CACHE_HIT: string := "EVENT_WORDLIST_CACHE_HIT"
  const EVENT_OUTERLOOP_STARTING: string := "EVENT_OUTERLOOP_STARTING"

  /** `event_strs[i]`: the names exposed as the `event_types` tuple, in
      order. Note the trailing blank at position 35, the outer-loop start. */
  function EventStr(i: EventIndex): string
  {
    match i
    case 0 => EVENT_AUTOTUNE_FINISHED
    case 1 => EVENT_AUTOTUNE_STARTING
    case 2 => EVENT_BITMAP_INIT_POST
    case 3 => EVENT_BITMAP_INIT_PRE
    case 4 => EVENT_CALCULATED_WORDS_BASE
    case 5 => EVENT_CRACKER_FINISHED
    case 6 => EVENT_CRACKER_HASH_CRACKED
    case 7 => EVENT_CRACKER_STARTING
    case 8 => EVENT_HASHLIST_COUNT_LINES_POST
    case 9 => EVENT_HASHLIST_COUNT_LINES_PRE
    case 10 => EVENT_HASHLIST_PARSE_HASH
    case 11 => EVENT_HASHLIST_SORT_HASH_POST
    case 12 => EVENT_HASHLIST_SORT_HASH_PRE
    case 13 => EVENT_HASHLIST_SORT_SALT_POST
    case 14 => EVENT_HASHLIST_SORT_SALT_PRE
    case 15 => EVENT_HASHLIST_UNIQUE_HASH_POST
    case 16 => EVENT_HASHLIST_UNIQUE_HASH_PRE
    case 17 => EVENT_INNERLOOP1_FINISHED
    case 18 => EVENT_INNERLOOP1_STARTING
    case 19 => EVENT_INNERLOOP2_FINISHED
    case 20 => EVENT_INNERLOOP2_STARTING
    case 21 => EVENT_LOG_ERROR
    case 22 => EVENT_LOG_INFO
    case 23 => EVENT_LOG_WARNING
    case 24 => EVENT_MONITOR_RUNTIME_LIMIT
    case 25 => EVENT_MONITOR_STATUS_REFRESH
    case 26 => EVENT_MONITOR_TEMP_ABORT
    case 27 => EVENT_MONITOR_THROTTLE1
    case 28 => EVENT_MONITOR_THROTTLE2
    case 29 => EVENT_MONITOR_THROTTLE3
    case 30 => EVENT_MONITOR_PERFORMANCE_HINT
    case 31 => EVENT_OPENCL_SESSION_POST
    case 32 => EVENT_OPENCL_SESSION_PRE
    case 33 => EVENT_OUTERLOOP_FINISHED
    case 34 => EVENT_OUTERLOOP_MAINSCREEN
    case 35 => EVENT_OUTERLOOP_STARTING_BLANK
    case 36 => EVENT_POTFILE_ALL_CRACKED
    case 37 => EVENT_POTFILE_HASH_LEFT
    case 38 => EVENT_POTFILE_HASH_SHOW
    case 39 => EVENT_POTFILE_NUM_CRACKED
    case 40 => EVENT_POTFILE_REMOVE_PARSE_POST
    case 41 => EVENT_POTFILE_REMOVE_PARSE_PRE
    case 42 => EVENT_SET_KERNEL_POWER_FINAL
    case 43 => EVENT_WEAK_HASH_POST
    case 44 => EVENT_WEAK_HASH_PRE
    case 45 => EVENT_WEAK_HASH_ALL_CRACKED
    case 46 => EVENT_WORDLIST_CACHE_GENERATE
    case _ => EVENT_WORDLIST_CACHE_HIT
  }

  /** The `event_types` tuple as a sequence. */
  const EventStrs: seq<string> := seq(NEventTypes, i requires 0 <= i < NEventTypes => EventStr(i))

  /** The `switch` of `event()`: the signal name dispatched for an engine
      event, or None when the identifier has no case ("signal unassigned").
      The autotune (0, 1) and inner-loop (17 to 20) events have no case. */
  function EventName(e: EngineEvent): Option<string>
  {
    match e
    case Unlisted(_) => None
    case Known(i) =>
      match i
      case 2 => Some(EVENT_BITMAP_INIT_POST)
      case 3 => Some(EVENT_BITMAP_INIT_PRE)
      case 4 => Some(EVENT_CALCULATED_WORDS_BASE)
      case 5 => Some(EVENT_CRACKER_FINISHED)
      case 6 => Some(EVENT_CRACKER_HASH_CRACKED)
      case 7 => Some(EVENT_CRACKER_STARTING)
      case 8 => Some(EVENT_HASHLIST_COUNT_LINES_POST)
      case 9 => Some(EVENT_HASHLIST_COUNT_LINES_PRE)
      case 10 => Some(EVENT_HASHLIST_PARSE_HASH)
      case 11 => Some(EVENT_HASHLIST_SORT_HASH_POST)
      case 12 => Some(EVENT_HASHLIST_SORT_HASH_PRE)
      case 13 => Some(EVENT_HASHLIST_SORT_SALT_POST)
      case 14 => Some(EVENT_HASHLIST_SORT_SALT_PRE)
      case 15 => Some(EVENT_HASHLIST_UNIQUE_HASH_POST)
      case 16 => Some(EVENT_HASHLIST_UNIQUE_HASH_PRE)
      case 21 => Some(EVENT_LOG_ERROR)
      case 22 => Some(EVENT_LOG_INFO)
      case 23 => Some(EVENT_LOG_WARNING)
      case 24 => Some(EVENT_MONITOR_RUNTIME_LIMIT)
      case 25 => Some(EVENT_MONITOR_STATUS_REFRESH)
      case 26 => Some(EVENT_MONITOR_TEMP_ABORT)
      case 27 => Some(EVENT_MONITOR_THROTTLE1)
      case 28 => Some(EVENT_MONITOR_THROTTLE2)
      case 29 => Some(EVENT_MONITOR_THROTTLE3)
      case 30 => Some(EVENT_MONITOR_PERFORMANCE_HINT)
      case 31 => Some(EVENT_OPENCL_SESSION_POST)
      case 32 => Some(EVENT_OPENCL_SESSION_PRE)
      case 33 => Some(EVENT_OUTERLOOP_FINISHED)
      case 34 => Some(EVENT_OUTERLOOP_MAINSCREEN)
      case 35 => Some(EVENT_OUTERLOOP_STARTING)
      case 36 => Some(EVENT_POTFILE_ALL_CRACKED)
      case 37 => Some(EVENT_POTFILE_HASH_LEFT)
      case 38 => Some(EVENT_POTFILE_HASH_SHOW)
      case 39 => Some(EVENT_BITMAP_INIT_POST)
      case 40 => Some(EVENT_POTFILE_REMOVE_PARSE_POST)
      case 41 => Some(EVENT_POTFILE_REMOVE_PARSE_PRE)
      case 42 => Some(EVENT_SET_KERNEL_POWER_FINAL)
      case 43 => Some(EVENT_WEAK_HASH_POST)
      case 44 => Some(EVENT_WEAK_HASH_PRE)
      case 45 => Some(EVENT_WEAK_HASH_ALL_CRACKED)
      case 46 => Some(EVENT_WORDLIST_CACHE_GENERATE)
      case 47 => Some(EVENT_WORDLIST_CACHE_HIT)
      case _ => None
  }

  /** The events that have no case in the switch. */
  predicate Unassigned(e: EngineEvent)
  {
    e.Unlisted? || e.index <= 1 || 17 <= e.index <= 20
  }

  /** Positions in `event_strs` whose names no event is ever dispatched
      under: the autotune and inner-loop entries, which have no case, the
      blank-suffixed outer-loop start, and the potfile "num cracked" entry,
      whose event is dispatched under the bitmap name. */
  const SilentPositions: set<nat> := {0, 1, 17, 18, 19, 20, 35, 39}

  /** The known events in advertised order. */
  function KnownEvents(): (es: seq<EngineEvent>)
    ensures |es| == NEventTypes
    ensures forall i :: 0 <= i < NEventTypes ==> es[i] == Known(i)
  {
    seq(NEventTypes, i requires 0 <= i < NEventTypes => Known(i))
  }

  /** Reverse reading of the switch: the first known event, in advertised
      order, dispatched under the given name. */
  function EventFor(name: string): (r: Option<EngineEvent>)
  {
    FirstNamed(name, KnownEvents())
  }

  function FirstNamed(name: string, es: seq<EngineEvent>): Option<EngineEvent>
  {
    if |es| == 0 then None
    else if EventName(es[0]) == Some(name) then Some(es[0])
    else FirstNamed(name, es[1..])
  }

  /** Whatever the search returns is in the list and is dispatched under the
      name searched for. */
  lemma {:induction false} FirstNamedSound(name: string, es: seq<EngineEvent>)
    ensures FirstNamed(name, es).Some? ==>
      FirstNamed(name, es).value in es && EventName(FirstNamed(name, es).value) == Some(name)
  {
    if |es| > 0 && EventName(es[0]) != Some(name) {
      FirstNamedSound(name, es[1..]);
    }
  }

  /** The search misses no event of the list. */
  lemma {:induction false} FirstNamedComplete(name: string, es: seq<EngineEvent>, k: nat)
    requires k < |es|
    requires EventName(es[k]) == Some(name)
    ensures FirstNamed(name, es).Some?
  {
    if EventName(es[0]) != Some(name) {
      FirstNamedComplete(name, es[1..], k - 1);
    }
  }

  /** EventFor answers exactly for the names some event is dispatched under,
      and what it answers is dispatched under that name. */
  lemma EventForExact(name: string)
    ensures EventFor(name).Some? <==> exists e: EngineEvent :: EventName(e) == Some(name)
    ensures EventFor(name).Some? ==> EventName(EventFor(name).value) == Some(name)
  {
    FirstNamedSound(name, KnownEvents());
    if e: EngineEvent :| EventName(e) == Some(name) {
      var k := e.index;
      assert KnownEvents()[k] == e;
      FirstNamedComplete(name, KnownEvents(), k);
    }
  }

  /** Round trip: EventName after EventFor gives back every dispatched name. */
  lemma EventForInvertsName(e: EngineEvent)
    requires EventName(e).Some?
    ensures EventFor(EventName(e).value).Some?
    ensures EventName(EventFor(EventName(e).value).value) == EventName(e)
  {
    EventForExact(EventName(e).value);
  }

  /** Identifiers without a case dispatch nothing, and every other event is
      dispatched under some name. */
  lemma UnassignedIff(e: EngineEvent)
    ensures EventName(e).None? <==> Unassigned(e)
  {
  }

  /** The potfile "num cracked" event is dispatched under the bitmap name,
      so a subscriber to "EVENT_BITMAP_INIT_POST" hears both, and nothing is
      ever dispatched under the potfile name itself. */
  lemma PotfileNumCrackedAliasesBitmap()
    ensures EventName(PotfileNumCracked) == EventName(BitmapInitPost) == Some("EVENT_BITMAP_INIT_POST")
    ensures forall e: EngineEvent :: EventName(e) != Some("EVENT_POTFILE_NUM_CRACKED")
  {
  }

  /** Each event is dispatched under its own advertised spelling, except the
      potfile "num cracked" event (bitmap name) and the outer-loop start,
      whose advertised spelling carries a trailing blank the switch lacks. */
  lemma DispatchedUnderOwnName(e: EngineEvent)
    requires !Unassigned(e)
    ensures EventName(e) == Some(EventStr(e.index)) <==> e != PotfileNumCracked && e != OuterloopStarting
  {
  }

  /** Hence every dispatched name is advertised, but for the outer-loop
      start. */
  lemma DispatchedNameAdvertised(e: EngineEvent)
    requires EventName(e).Some?
    ensures EventName(e).value in EventStrs <==> e != OuterloopStarting
  {
    UnassignedIff(e);
    DispatchedUnderOwnName(e);
    if e == PotfileNumCracked {
      assert EventStrs[BitmapInitPost.index] == EventName(e).value;
    } else if e == OuterloopStarting {
      forall i | 0 <= i < NEventTypes
        ensures EventStrs[i] != "EVENT_OUTERLOOP_STARTING"
      {
        assert |EventStr(i)| != 24 || EventStr(i) != "EVENT_OUTERLOOP_STARTING";
      }
    } else {
      assert EventStrs[e.index] == EventName(e).value;
    }
  }

  /** No event is ever dispatched under the name at a silent position. */
  lemma SilentNamesNeverFire(i: nat)
    requires i in SilentPositions
    ensures i < NEventTypes
    ensures forall e: EngineEvent :: EventName(e) != Some(EventStr(i))
  {
  }

  /** The advertised names split into the eight silent ones and those
      dispatched under the very event they are named after. */
  lemma AdvertisedNamesThatFire(e: EngineEvent)
    requires e.Known?
    ensures e.index !in SilentPositions <==> EventName(e) == Some(EventStr(e.index))
  {
  }
}
