/** The process-wide callback registry of the C binding: the static
    `handlers[MAXH]` array with its fill count `n_handlers`, registration by
    `event_connect`, and `event_dispatch`, which walks the whole table and
    calls every handler whose signal name equals the dispatched name. */
module Registry {
  import opened Common
  import opened Events

  /** Capacity of the static handler table. */
  const MAXH: nat := 100

  /** Identity of a Python object (a hashcat object or a callback). */
  type PyRef = nat

  /** One `event_handlers_t` slot: the object the callback was registered
      on, the callback, and the signal name (NULL once cleared). */
  datatype Handler = Handler(owner: PyRef, callback: PyRef, esignal: Option<string>)

  /** The `signal` argument as the "s" conversion sees it. */
  datatype SignalArg = StrArg(s: string) | NotStrArg

  /** What `event_connect` returns to Python. */
  datatype ConnectResult =
    | ReturnedNone
    | ArgumentError                    // "Os" parsing failed; the parser raised
    | RaisedTypeError(message: string)

  /** What dispatching does for one matching slot: call the callback with
      the recorded owner (noting whether it raised, after which the error is
      printed and cleared), or write "expected a callable" to stderr. */
  datatype Effect =
    | Called(slot: nat, callback: PyRef, arg: PyRef, errorPrinted: bool)
    | NotCallableWarning(slot: nat)

  const NotCallableMessage: string := "parameter must be callable"

  /** A slot answers a name when its signal is set and compares equal. */
  predicate Matches(h: Handler, name: string)
  {
    h.esignal == Some(name)
  }

  /** The effect of reaching a matching slot `j`. Whether a callable is
      callable depends on the object; whether the call raises depends on the
      call, so `raises` is asked per slot. */
  function EffectOf(j: nat, h: Handler, callable: PyRef -> bool, raises: nat -> bool): (eff: Effect)
    ensures eff.slot == j
  {
    if callable(h.callback) then Called(j, h.callback, h.owner, raises(j))
    else NotCallableWarning(j)
  }

  function StepAt(j: nat, h: Handler, name: string, callable: PyRef -> bool, raises: nat -> bool): seq<Effect>
  {
    if Matches(h, name) then [EffectOf(j, h, callable, raises)] else []
  }

  /** The effects of dispatching `name` over the first |entries| slots, in
      slot order. */
  function Dispatched(entries: seq<Handler>, name: string, callable: PyRef -> bool, raises: nat -> bool): seq<Effect>
  {
    if |entries| == 0 then []
    else
      Dispatched(entries[..|entries| - 1], name, callable, raises)
        + StepAt(|entries| - 1, entries[|entries| - 1], name, callable, raises)
  }

  /** The table with every signal name cleared. */
  function Silenced(entries: seq<Handler>): (r: seq<Handler>)
    ensures |r| == |entries|
    ensures forall j :: 0 <= j < |r| ==> r[j] == entries[j].(esignal := None)
  {
    seq(|entries|, j requires 0 <= j < |entries| => entries[j].(esignal := None))
  }

  /** Dispatching over one more slot appends that slot's effect. */
  lemma DispatchAppend(entries: seq<Handler>, h: Handler, name: string, callable: PyRef -> bool, raises: nat -> bool)
    ensures Dispatched(entries + [h], name, callable, raises)
      == Dispatched(entries, name, callable, raises) + StepAt(|entries|, h, name, callable, raises)
  {
    assert (entries + [h])[..|entries|] == entries;
  }

  /** Every effect belongs to a matching slot and is what that slot calls
      for, and effects come in increasing slot order, so each slot fires at
      most once. */
  lemma {:induction false} DispatchSound(entries: seq<Handler>, name: string, callable: PyRef -> bool, raises: nat -> bool)
    ensures forall k :: 0 <= k < |Dispatched(entries, name, callable, raises)| ==>
      Dispatched(entries, name, callable, raises)[k].slot < |entries|
      && Matches(entries[Dispatched(entries, name, callable, raises)[k].slot], name)
      && Dispatched(entries, name, callable, raises)[k]
         == EffectOf(Dispatched(entries, name, callable, raises)[k].slot,
                     entries[Dispatched(entries, name, callable, raises)[k].slot], callable, raises)
    ensures forall k, l :: 0 <= k < l < |Dispatched(entries, name, callable, raises)| ==>
      Dispatched(entries, name, callable, raises)[k].slot < Dispatched(entries, name, callable, raises)[l].slot
  {
    if |entries| > 0 {
      var n := |entries| - 1;
      var prefix := entries[..n];
      DispatchSound(prefix, name, callable, raises);
      var p := Dispatched(prefix, name, callable, raises);
      var r := Dispatched(entries, name, callable, raises);
      assert r == p + StepAt(n, entries[n], name, callable, raises);
      forall k | 0 <= k < |p|
        ensures r[k] == p[k] && p[k].slot < n && entries[p[k].slot] == prefix[p[k].slot]
      {
      }
    }
  }

  /** No matching slot is skipped. */
  lemma {:induction false} DispatchComplete(entries: seq<Handler>, name: string, callable: PyRef -> bool, raises: nat -> bool)
    ensures forall j :: 0 <= j < |entries| && Matches(entries[j], name) ==>
      exists k :: 0 <= k < |Dispatched(entries, name, callable, raises)|
        && Dispatched(entries, name, callable, raises)[k].slot == j
  {
    if |entries| > 0 {
      var n := |entries| - 1;
      var prefix := entries[..n];
      DispatchComplete(prefix, name, callable, raises);
      var p := Dispatched(prefix, name, callable, raises);
      var r := Dispatched(entries, name, callable, raises);
      assert r == p + StepAt(n, entries[n], name, callable, raises);
      forall j | 0 <= j < |entries| && Matches(entries[j], name)
        ensures exists k :: 0 <= k < |r| && r[k].slot == j
      {
        if j < n {
          assert prefix[j] == entries[j] && Matches(prefix[j], name);
          var k :| 0 <= k < |p| && p[k].slot == j;
          assert r[k] == p[k];
          assert 0 <= k < |r| && r[k].slot == j;
        } else {
          assert StepAt(n, entries[n], name, callable, raises) == [EffectOf(n, entries[n], callable, raises)];
          assert 0 <= |p| < |r| && r[|p|].slot == j;
        }
      }
      assert r == Dispatched(entries, name, callable, raises);
    }
  }

  /** A table whose names are all cleared dispatches nothing. */
  lemma {:induction false} SilencedDispatchesNothing(entries: seq<Handler>, name: string, callable: PyRef -> bool, raises: nat -> bool)
    ensures Dispatched(Silenced(entries), name, callable, raises) == []
  {
    if |entries| > 0 {
      var n := |entries| - 1;
      assert Silenced(entries)[..n] == Silenced(entries[..n]);
      SilencedDispatchesNothing(entries[..n], name, callable, raises);
    }
  }

  /** The same callback registered twice under one name is called twice. */
  lemma DuplicateRegistrationFiresTwice(entries: seq<Handler>, h: Handler, name: string, callable: PyRef -> bool, raises: nat -> bool)
    requires Matches(h, name) && callable(h.callback)
    ensures var r := Dispatched(entries + [h] + [h], name, callable, raises);
      |r| >= 2 && r[|r| - 2] == Called(|entries|, h.callback, h.owner, raises(|entries|))
      && r[|r| - 1] == Called(|entries| + 1, h.callback, h.owner, raises(|entries| + 1))
  {
    DispatchAppend(entries, h, name, callable, raises);
    DispatchAppend(entries + [h], h, name, callable, raises);
  }

  /** There is no wildcard: a handler registered under "ANY" only answers
      the name "ANY", and no engine event is ever dispatched under it. */
  lemma NoWildcard(h: Handler, name: string)
    requires h.esignal == Some("ANY")
    ensures Matches(h, name) <==> name == "ANY"
    ensures forall e: EngineEvent :: EventName(e) != Some("ANY")
  {
  }

  /** The static `handlers` table and `n_handlers`, shared by every hashcat
      object of the process. */
  class HandlerTable {
    var slots: array<Handler>
    var count: nat

    ghost predicate Valid()
      reads this
    {
      slots.Length == MAXH && count <= MAXH
    }

    /** The registered slots `handlers[0 .. n_handlers)`. */
    function Entries(): seq<Handler>
      reads this, slots
      requires Valid()
    {
      slots[..count]
    }

    /** Zero-initialised static storage: no handlers. */
    constructor ()
      ensures Valid() && Entries() == []
      ensures fresh(slots)
    {
      slots := new Handler[MAXH](_ => Handler(0, 0, None));
      count := 0;
    }

    /** `event_connect(callback, signal)`. A callable callback is appended
        with the object it was registered on; otherwise a TypeError. There
        is no bound check in the source: more than MAXH registrations write
        past the array, so the model requires room. */
    method Connect(owner: PyRef, callback: PyRef, signal: SignalArg, callable: PyRef -> bool) returns (r: ConnectResult)
      requires Valid() && count < MAXH
      modifies this, slots
      ensures Valid() && slots == old(slots)
      ensures (signal.NotStrArg? || (signal.StrArg? && '\0' in signal.s)) ==>
        r == ArgumentError && Entries() == old(Entries())
      ensures signal.StrArg? && '\0' !in signal.s && !callable(callback) ==>
        r == RaisedTypeError(NotCallableMessage) && Entries() == old(Entries())
      ensures signal.StrArg? && '\0' !in signal.s && callable(callback) ==>
        r == ReturnedNone && Entries() == old(Entries()) + [Handler(owner, callback, Some(signal.s))]
    {
      if signal.NotStrArg? || '\0' in signal.s {
        return ArgumentError;
      }
      if !callable(callback) {
        return RaisedTypeError(NotCallableMessage);
      }
      slots[count] := Handler(owner, callback, Some(signal.s));
      count := count + 1;
      r := ReturnedNone;
    }

    /** `event_dispatch(esignal, ...)`: walk every registered slot in order. */
    method Dispatch(name: string, callable: PyRef -> bool, raises: nat -> bool) returns (effects: seq<Effect>)
      requires Valid()
      ensures effects == Dispatched(Entries(), name, callable, raises)
    {
      effects := [];
      var ref := 0;
      while ref < count
        invariant 0 <= ref <= count
        invariant effects == Dispatched(slots[..ref], name, callable, raises)
      {
        var h := slots[ref];
        if h.esignal.Some? && h.esignal.value == name {
          if !callable(h.callback) {
            effects := effects + [NotCallableWarning(ref)];
          } else {
            effects := effects + [Called(ref, h.callback, h.owner, raises(ref))];
          }
        }
        assert slots[..ref + 1] == slots[..ref] + [h];
        DispatchAppend(slots[..ref], h, name, callable, raises);
        ref := ref + 1;
      }
    }

    /** `event(id, ...)`: events without a case do nothing; the others are
        dispatched under the name the switch gives them. */
    method Notify(e: EngineEvent, callable: PyRef -> bool, raises: nat -> bool) returns (effects: seq<Effect>)
      requires Valid()
      ensures EventName(e).None? ==> effects == []
      ensures EventName(e).Some? ==> effects == Dispatched(Entries(), EventName(e).value, callable, raises)
    {
      var name := EventName(e);
      if name.None? {
        return [];
      }
      effects := Dispatch(name.value, callable, raises);
    }

    /** The clearing loop run whenever a hashcat object is created: every
        slot keeps its callback but loses its signal name; the count stays. */
    method ClearSignals()
      requires Valid()
      modifies slots
      ensures Valid()
      ensures Entries() == Silenced(old(Entries()))
    {
      var i := 0;
      while i < count
        invariant 0 <= i <= count
        invariant slots[..i] == Silenced(old(slots[..count]))[..i]
        invariant slots[i..count] == old(slots[i..count])
      {
        slots[i] := slots[i].(esignal := None);
        i := i + 1;
      }
    }
  }

  /** Once every name is cleared no event reaches any old handler. */
  lemma ClearedTableIsDeaf(entries: seq<Handler>, e: EngineEvent, callable: PyRef -> bool, raises: nat -> bool)
    requires EventName(e).Some?
    ensures Dispatched(Silenced(entries), EventName(e).value, callable, raises) == []
  {
    SilencedDispatchesNothing(entries, EventName(e).value, callable, raises);
  }

  /** A handler registered under "EVENT_BITMAP_INIT_POST" is called for the
      potfile "num cracked" event exactly as for the bitmap event. */
  lemma PotfileEventReachesBitmapSubscribers(entries: seq<Handler>, callable: PyRef -> bool, raises: nat -> bool)
    ensures Dispatched(entries, EventName(PotfileNumCracked).value, callable, raises)
      == Dispatched(entries, "EVENT_BITMAP_INIT_POST", callable, raises)
  {
    PotfileNumCrackedAliasesBitmap();
  }

  /** A handler registered under the advertised outer-loop start name, which
      ends in a blank, is never reached by the outer-loop start event. */
  lemma AdvertisedOuterloopNameIsDeaf(h: Handler)
    requires h.esignal == Some("EVENT_OUTERLOOP_STARTING ")
    ensures !Matches(h, EventName(OuterloopStarting).value)
  {
    assert EventName(OuterloopStarting).value == "EVENT_OUTERLOOP_STARTING";
  }
}
