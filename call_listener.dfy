/** The missed-call detector of `CallForegroundService`: the anonymous
    `PhoneStateListener` created in `startCallListener`.

    The listener keeps three fields across callbacks. On the IDLE that ends a
    call which rang and was never answered it hands the caller's number and
    the configured message to `showMissedCallNotification`; here the method
    returns that pair instead. The two preferences it reads on every callback
    (`service_active` and `custom_sms_message`) are passed in.

    `Step` is the specification of one callback as a function on values;
    `Run` folds it over a sequence of callbacks. The class
    `MissedCallListener` is the listener itself and is proved to follow
    `Step`; the lemmas state what the detector promises over event sequences. */
module CallListener {
  import opened Wrappers
  import opened KotlinText

  // TelephonyManager's call-state codes.
  const CALL_STATE_IDLE: int := 0
  const CALL_STATE_RINGING: int := 1
  const CALL_STATE_OFFHOOK: int := 2

  /** The message used when `custom_sms_message` is absent. */
  const DEFAULT_MESSAGE: string := "Hola, te devuelvo la llamada en breve."

  /** What `showMissedCallNotification` is called with. */
  datatype MissedCall = MissedCall(number: string, message: string)

  /** The listener's three fields as one value. */
  datatype CallSession = CallSession(isIncoming: bool, isCallAnswered: bool, incomingNumber: Option<string>)

  /** The fields' initial values, also restored after every IDLE. */
  const Initial: CallSession := CallSession(false, false, None)

  /** One `onCallStateChanged(state, number)` callback, with the two
      preferences as they read at that moment. */
  datatype Event = Event(state: int, number: Option<string>, serviceActive: bool, storedMessage: Option<string>)

  datatype StepResult = StepResult(next: CallSession, action: Option<MissedCall>)

  /** The trace of a run: the session at the end and, for every callback in
      order, what it raised. */
  datatype Trace = Trace(final: CallSession, actions: seq<Option<MissedCall>>)

  /** What every reachable session satisfies: a stored number is never empty,
      and a call is marked answered only once it has rung. */
  predicate Valid(s: CallSession) {
    && (s.incomingNumber.Some? ==> |s.incomingNumber.value| > 0)
    && (s.isCallAnswered ==> s.isIncoming)
  }

  /** The stored number once the event's own number has been taken in: a
      non-null, non-empty number overwrites it, anything else leaves it. */
  function Captured(s: CallSession, e: Event): Option<string> {
    if !IsNullOrEmpty(e.number) then e.number else s.incomingNumber
  }

  /** One callback, as a function from the old fields to the new fields and
      the action raised. */
  function Step(s: CallSession, e: Event): (r: StepResult)
    ensures !e.serviceActive ==> r == StepResult(s, None)
    ensures r.action.Some? <==>
            IsActive(e, CALL_STATE_IDLE) && s.isIncoming && !s.isCallAnswered && Captured(s, e).Some?
    ensures r.action.Some? ==> r.action.value == MissedCall(Captured(s, e).value, e.storedMessage.GetOr(DEFAULT_MESSAGE))
    ensures IsActive(e, CALL_STATE_IDLE) ==> r.next == Initial
    ensures e.serviceActive && e.state != CALL_STATE_IDLE ==> r.next.incomingNumber == Captured(s, e)
  {
    if !e.serviceActive then StepResult(s, None)
    else
      var n := Captured(s, e);
      if e.state == CALL_STATE_RINGING then
        StepResult(CallSession(true, false, n), None)
      else if e.state == CALL_STATE_OFFHOOK then
        if s.isIncoming then StepResult(CallSession(s.isIncoming, true, n), None)
        else StepResult(CallSession(s.isIncoming, s.isCallAnswered, n), None)
      else if e.state == CALL_STATE_IDLE then
        var action :=
          if s.isIncoming && !s.isCallAnswered && n.Some?
          then Some(MissedCall(n.value, e.storedMessage.GetOr(DEFAULT_MESSAGE)))
          else None;
        StepResult(Initial, action)
      else
        StepResult(s.(incomingNumber := n), None)
  }

  /** Feeds the callbacks to the listener one after the other. */
  function Run(s: CallSession, evs: seq<Event>): (t: Trace)
    ensures |t.actions| == |evs|
    decreases |evs|
  {
    if evs == [] then Trace(s, [])
    else
      var r := Step(s, evs[0]);
      var t := Run(r.next, evs[1..]);
      Trace(t.final, [r.action] + t.actions)
  }

  /** The actions actually raised, in order. */
  function Emitted(actions: seq<Option<MissedCall>>): seq<MissedCall>
    decreases |actions|
  {
    if actions == [] then []
    else (if actions[0].Some? then [actions[0].value] else []) + Emitted(actions[1..])
  }

  /** The actions of two parts of a run are those of the first part, then
      those of the second. */
  lemma {:induction false} EmittedAppend(a: seq<Option<MissedCall>>, b: seq<Option<MissedCall>>)
    ensures Emitted(a + b) == Emitted(a) + Emitted(b)
    decreases |a|
  {
    if a == [] {
      assert a + b == b;
    } else {
      assert (a + b)[0] == a[0];
      assert (a + b)[1..] == a[1..] + b;
      EmittedAppend(a[1..], b);
    }
  }

  predicate IsActive(e: Event, state: int) {
    e.serviceActive && e.state == state
  }

  /** How many callbacks are IDLE events the listener does not ignore. */
  function CountActiveIdles(evs: seq<Event>): nat
    decreases |evs|
  {
    if evs == [] then 0
    else (if IsActive(evs[0], CALL_STATE_IDLE) then 1 else 0) + CountActiveIdles(evs[1..])
  }

  /** The number of the last callback the listener does not ignore that
      carries a non-empty number, or `known` when there is none. */
  function LastNumber(evs: seq<Event>, known: Option<string>): Option<string>
    decreases |evs|
  {
    if evs == [] then known
    else
      var e := evs[|evs| - 1];
      if e.serviceActive && !IsNullOrEmpty(e.number) then e.number
      else LastNumber(evs[..|evs| - 1], known)
  }

  // ---------------------------------------------------------------------
  // One callback

  /** With `service_active` false the callback returns at once: no field
      changes and nothing is raised, whatever the state and the number. */
  lemma DisabledIgnoresEvent(s: CallSession, e: Event)
    requires !e.serviceActive
    ensures Step(s, e) == StepResult(s, None)
  {
  }

  /** On every event the listener does not ignore, except the IDLE that
      clears it, the stored number is the event's own non-empty number, or
      the previous one when the event's number is null or empty. */
  lemma NumberCapture(s: CallSession, e: Event)
    requires e.serviceActive && e.state != CALL_STATE_IDLE
    ensures Step(s, e).next.incomingNumber ==
            (if e.number.Some? && |e.number.value| > 0 then e.number else s.incomingNumber)
  {
  }

  /** RINGING arms the check, even after an OFFHOOK: the call is incoming
      and not answered. */
  lemma RingingArms(s: CallSession, e: Event)
    requires IsActive(e, CALL_STATE_RINGING)
    ensures Step(s, e).next.isIncoming && !Step(s, e).next.isCallAnswered
    ensures Step(s, e).action == None
  {
  }

  /** OFFHOOK marks the call answered only when it rang first; an OFFHOOK
      without a RINGING before it (an outgoing call) changes no flag. */
  lemma OffhookAnswersOnlyIncoming(s: CallSession, e: Event)
    requires IsActive(e, CALL_STATE_OFFHOOK)
    ensures Step(s, e).next.isIncoming == s.isIncoming
    ensures Step(s, e).next.isCallAnswered == (s.isCallAnswered || s.isIncoming)
    ensures !s.isIncoming ==> Step(s, e).next == s.(incomingNumber := Step(s, e).next.incomingNumber)
    ensures Step(s, e).action == None
  {
  }

  /** IDLE raises an action exactly when the call rang, was not answered and
      a number is known; the action carries that number and the stored
      message, or the default message when none is stored. */
  lemma IdleDecision(s: CallSession, e: Event)
    requires IsActive(e, CALL_STATE_IDLE)
    ensures Step(s, e).action.Some? <==>
            s.isIncoming && !s.isCallAnswered && Captured(s, e).Some?
    ensures Step(s, e).action.Some? ==>
            Step(s, e).action.value.number == Captured(s, e).value
    ensures Step(s, e).action.Some? && e.storedMessage.Some? ==>
            Step(s, e).action.value.message == e.storedMessage.value
    ensures Step(s, e).action.Some? && e.storedMessage.None? ==>
            Step(s, e).action.value.message == "Hola, te devuelvo la llamada en breve."
  {
  }

  /** After an IDLE the listener does not ignore, all three fields are back
      to their initial values, whether or not an action was raised. */
  lemma IdleResets(s: CallSession, e: Event)
    requires IsActive(e, CALL_STATE_IDLE)
    ensures Step(s, e).next == Initial
  {
  }

  /** A state code that is none of the three constants only takes in the
      number: the `when` has no `else` branch. */
  lemma UnknownStateOnlyCapturesNumber(s: CallSession, e: Event)
    requires e.state != CALL_STATE_IDLE && e.state != CALL_STATE_RINGING && e.state != CALL_STATE_OFFHOOK
    ensures Step(s, e).next == s.(incomingNumber := Step(s, e).next.incomingNumber)
    ensures Step(s, e).action == None
  {
  }

  /** Only an IDLE the listener does not ignore can raise an action. */
  lemma OnlyIdleRaises(s: CallSession, e: Event)
    requires Step(s, e).action.Some?
    ensures IsActive(e, CALL_STATE_IDLE) && Step(s, e).next == Initial
  {
  }

  /** Every callback keeps the session valid, and a raised action never
      carries an empty number. */
  lemma StepKeepsValid(s: CallSession, e: Event)
    requires Valid(s)
    ensures Valid(Step(s, e).next)
    ensures Step(s, e).action.Some? ==> |Step(s, e).action.value.number| > 0
  {
  }

  // ---------------------------------------------------------------------
  // The three phases of a call

  /** The phase a call is in. */
  datatype Phase = IdlePhase | RingingPhase | AnsweredPhase

  /** The phase the listener's two flags stand for; the fourth combination
      (answered but not incoming) is excluded by `Valid`. */
  function PhaseOf(s: CallSession): Phase
    requires Valid(s)
  {
    if !s.isIncoming then IdlePhase
    else if s.isCallAnswered then AnsweredPhase
    else RingingPhase
  }

  /** The call-phase machine: RINGING always rings, OFFHOOK answers only a
      ringing call, IDLE ends the call, other codes change no phase. */
  function NextPhase(p: Phase, state: int): Phase {
    if state == CALL_STATE_RINGING then RingingPhase
    else if state == CALL_STATE_OFFHOOK then (if p == RingingPhase then AnsweredPhase else p)
    else if state == CALL_STATE_IDLE then IdlePhase
    else p
  }

  /** The listener follows the phase machine, and it raises an action exactly
      on the IDLE that ends a call still in the ringing phase with a known
      number. */
  lemma StepFollowsPhases(s: CallSession, e: Event)
    requires Valid(s) && e.serviceActive
    ensures Valid(Step(s, e).next)
    ensures PhaseOf(Step(s, e).next) == NextPhase(PhaseOf(s), e.state)
    ensures Step(s, e).action.Some? <==>
            e.state == CALL_STATE_IDLE && PhaseOf(s) == RingingPhase && Captured(s, e).Some?
  {
  }

  // ---------------------------------------------------------------------
  // Sequences of callbacks

  /** Running two batches of callbacks one after the other is running them
      together. */
  lemma {:induction false} RunAppend(s: CallSession, a: seq<Event>, b: seq<Event>)
    ensures Run(s, a + b) ==
            Trace(Run(Run(s, a).final, b).final, Run(s, a).actions + Run(Run(s, a).final, b).actions)
    decreases |a|
  {
    if a == [] {
      assert a + b == b;
    } else {
      assert (a + b)[0] == a[0];
      assert (a + b)[1..] == a[1..] + b;
      RunAppend(Step(s, a[0]).next, a[1..], b);
    }
  }

  /** One callback, then the rest. */
  lemma RunCons(s: CallSession, e: Event, evs: seq<Event>)
    ensures Run(s, [e] + evs) ==
            Trace(Run(Step(s, e).next, evs).final, [Step(s, e).action] + Run(Step(s, e).next, evs).actions)
  {
    assert ([e] + evs)[0] == e;
    assert ([e] + evs)[1..] == evs;
  }

  /** The k-th callback of a run sees the session left by the first k, and
      raises what one step from there raises. */
  lemma RunAt(s: CallSession, evs: seq<Event>, k: nat)
    requires k < |evs|
    ensures Run(s, evs).actions[k] == Step(Run(s, evs[..k]).final, evs[k]).action
    ensures Run(s, evs[..k + 1]).final == Step(Run(s, evs[..k]).final, evs[k]).next
  {
    assert evs == evs[..k] + evs[k..];
    RunAppend(s, evs[..k], evs[k..]);
    assert evs[..k + 1] == evs[..k] + [evs[k]];
    RunAppend(s, evs[..k], [evs[k]]);
  }

  /** Every run from a valid session stays valid. */
  lemma {:induction false} RunKeepsValid(s: CallSession, evs: seq<Event>)
    requires Valid(s)
    ensures Valid(Run(s, evs).final)
    decreases |evs|
  {
    if evs != [] {
      StepKeepsValid(s, evs[0]);
      RunKeepsValid(Step(s, evs[0]).next, evs[1..]);
    }
  }

  /** RINGING with a number, then IDLE: exactly one action, with the
      number of the IDLE event if it has one and of the RINGING event
      otherwise, and the session ends reset. This holds whatever state the
      listener was in before. */
  lemma RingThenIdleRaisesOnce(s: CallSession, n: string, idleNumber: Option<string>,
                               m1: Option<string>, m2: Option<string>)
    requires |n| > 0
    ensures Run(s, [Event(CALL_STATE_RINGING, Some(n), true, m1), Event(CALL_STATE_IDLE, idleNumber, true, m2)])
         == Trace(Initial, [None, Some(MissedCall(if IsNullOrEmpty(idleNumber) then n else idleNumber.value,
                                                  m2.GetOr(DEFAULT_MESSAGE)))])
  {
    var e1, e2 := Event(CALL_STATE_RINGING, Some(n), true, m1), Event(CALL_STATE_IDLE, idleNumber, true, m2);
    assert [e1, e2] == [e1] + ([e2] + []);
    RunCons(s, e1, [e2] + []);
    RunCons(Step(s, e1).next, e2, []);
  }

  /** RINGING, then OFFHOOK, then IDLE: an answered call raises nothing. */
  lemma AnsweredCallRaisesNothing(s: CallSession, n1: Option<string>, n2: Option<string>, n3: Option<string>,
                                  m1: Option<string>, m2: Option<string>, m3: Option<string>)
    ensures Run(s, [Event(CALL_STATE_RINGING, n1, true, m1), Event(CALL_STATE_OFFHOOK, n2, true, m2),
                    Event(CALL_STATE_IDLE, n3, true, m3)])
         == Trace(Initial, [None, None, None])
  {
    var e1, e2, e3 := Event(CALL_STATE_RINGING, n1, true, m1), Event(CALL_STATE_OFFHOOK, n2, true, m2),
                      Event(CALL_STATE_IDLE, n3, true, m3);
    var s1 := Step(s, e1).next;
    var s2 := Step(s1, e2).next;
    assert [e1, e2, e3] == [e1] + ([e2] + ([e3] + []));
    RunCons(s, e1, [e2] + ([e3] + []));
    RunCons(s1, e2, [e3] + []);
    RunCons(s2, e3, []);
  }

  /** OFFHOOK then IDLE with no RINGING before (an outgoing call, for
      instance from the initial state) raises nothing. */
  lemma OutgoingCallRaisesNothing(s: CallSession, n1: Option<string>, n2: Option<string>,
                                  m1: Option<string>, m2: Option<string>)
    requires !s.isIncoming
    ensures Run(s, [Event(CALL_STATE_OFFHOOK, n1, true, m1), Event(CALL_STATE_IDLE, n2, true, m2)])
         == Trace(Initial, [None, None])
  {
    var e1, e2 := Event(CALL_STATE_OFFHOOK, n1, true, m1), Event(CALL_STATE_IDLE, n2, true, m2);
    assert [e1, e2] == [e1] + ([e2] + []);
    RunCons(s, e1, [e2] + []);
    RunCons(Step(s, e1).next, e2, []);
  }

  /** RINGING without a number, then RINGING with one, then IDLE without
      one: the action carries the number of the second RINGING. */
  lemma LateNumberIsUsed(s: CallSession, n: string, m1: Option<string>, m2: Option<string>, m3: Option<string>)
    requires |n| > 0
    ensures Run(s, [Event(CALL_STATE_RINGING, None, true, m1), Event(CALL_STATE_RINGING, Some(n), true, m2),
                    Event(CALL_STATE_IDLE, None, true, m3)])
         == Trace(Initial, [None, None, Some(MissedCall(n, m3.GetOr(DEFAULT_MESSAGE)))])
  {
    var e1, e2, e3 := Event(CALL_STATE_RINGING, None, true, m1), Event(CALL_STATE_RINGING, Some(n), true, m2),
                      Event(CALL_STATE_IDLE, None, true, m3);
    var s1 := Step(s, e1).next;
    var s2 := Step(s1, e2).next;
    assert [e1, e2, e3] == [e1] + ([e2] + ([e3] + []));
    RunCons(s, e1, [e2] + ([e3] + []));
    RunCons(s1, e2, [e3] + []);
    RunCons(s2, e3, []);
  }

  /** With `service_active` switched off between RINGING and IDLE, the IDLE
      is ignored like any other callback: nothing is raised and the session
      is left armed with the caller's number, not reset. */
  lemma DisabledMidCall(s: CallSession, n: string, m1: Option<string>, idle: Event)
    requires |n| > 0 && idle.state == CALL_STATE_IDLE && !idle.serviceActive
    ensures Run(s, [Event(CALL_STATE_RINGING, Some(n), true, m1), idle])
         == Trace(CallSession(true, false, Some(n)), [None, None])
  {
    var e1 := Event(CALL_STATE_RINGING, Some(n), true, m1);
    assert [e1, idle] == [e1] + ([idle] + []);
    RunCons(s, e1, [idle] + []);
    RunCons(Step(s, e1).next, idle, []);
  }

  /** Because that IDLE left the session armed, the next call reports the
      earlier caller when its own RINGING carries no number. */
  lemma StaleNumberAfterDisabledIdle(a: string, m: Option<string>)
    requires |a| > 0
    ensures Emitted(Run(Initial, [Event(CALL_STATE_RINGING, Some(a), true, None), Event(CALL_STATE_IDLE, None, false, None),
                                  Event(CALL_STATE_RINGING, None, true, None), Event(CALL_STATE_IDLE, None, true, m)]).actions)
         == [MissedCall(a, m.GetOr(DEFAULT_MESSAGE))]
  {
    var e1, e2 := Event(CALL_STATE_RINGING, Some(a), true, None), Event(CALL_STATE_IDLE, None, false, None);
    var e3, e4 := Event(CALL_STATE_RINGING, None, true, None), Event(CALL_STATE_IDLE, None, true, m);
    var s1 := Step(Initial, e1).next;
    var s2 := Step(s1, e2).next;
    var s3 := Step(s2, e3).next;
    assert [e1, e2, e3, e4] == [e1] + ([e2] + ([e3] + ([e4] + [])));
    RunCons(Initial, e1, [e2] + ([e3] + ([e4] + [])));
    RunCons(s1, e2, [e3] + ([e4] + []));
    RunCons(s2, e3, [e4] + []);
    RunCons(s3, e4, []);
    var x := MissedCall(a, m.GetOr(DEFAULT_MESSAGE));
    assert Run(Initial, [e1, e2, e3, e4]).actions == [None, None, None] + [Some(x)];
    EmittedAppend([None, None, None], [Some(x)]);
    EmittedAppend([None], [None, None]);
    EmittedAppend([None], [None]);
  }

  /** A run that ends with an IDLE the listener does not ignore leaves the
      session reset, whatever came before. */
  lemma ResetAfterIdle(s: CallSession, evs: seq<Event>, idle: Event)
    requires IsActive(idle, CALL_STATE_IDLE)
    ensures Run(s, evs + [idle]).final == Initial
  {
    RunAppend(s, evs, [idle]);
  }

  /** Two IDLEs in a row: the second never raises an action. */
  lemma SecondIdleRaisesNothing(s: CallSession, evs: seq<Event>, idle1: Event, idle2: Event)
    requires IsActive(idle1, CALL_STATE_IDLE) && idle2.state == CALL_STATE_IDLE
    ensures Run(s, evs + [idle1, idle2]).actions[|evs| + 1] == None
  {
    RunAppend(s, evs, [idle1, idle2]);
  }

  /** From a session with no flag set, a run with no RINGING the listener
      takes in raises nothing and leaves the flag unset. */
  lemma {:induction false} QuietWithoutRinging(s: CallSession, evs: seq<Event>)
    requires !s.isIncoming
    requires forall k :: 0 <= k < |evs| ==> !IsActive(evs[k], CALL_STATE_RINGING)
    ensures !Run(s, evs).final.isIncoming
    ensures forall k :: 0 <= k < |evs| ==> Run(s, evs).actions[k] == None
    decreases |evs|
  {
    if evs != [] {
      var r := Step(s, evs[0]);
      assert !r.next.isIncoming && r.action == None;
      QuietWithoutRinging(r.next, evs[1..]);
      var t := Run(r.next, evs[1..]);
      assert Run(s, evs).actions == [r.action] + t.actions;
    }
  }

  /** No action is ever duplicated: between any two actions of a run there
      is a RINGING the listener took in, that is, a new call. */
  lemma NoDuplicateAction(s: CallSession, evs: seq<Event>, i: nat, j: nat)
    requires i < j < |evs|
    requires Run(s, evs).actions[i].Some? && Run(s, evs).actions[j].Some?
    ensures exists k :: i < k < j && IsActive(evs[k], CALL_STATE_RINGING)
  {
    if forall k :: i < k < j ==> !IsActive(evs[k], CALL_STATE_RINGING) {
      RunAt(s, evs, i);
      OnlyIdleRaises(Run(s, evs[..i]).final, evs[i]);
      var mid := evs[i + 1..j];
      assert forall k :: 0 <= k < |mid| ==> mid[k] == evs[i + 1 + k];
      QuietWithoutRinging(Initial, mid);
      assert evs[..j] == evs[..i + 1] + mid;
      RunAppend(s, evs[..i + 1], mid);
      RunAt(s, evs, j);
      assert false;
    }
  }

  /** At most one action per IDLE the listener takes in, hence at most one
      per call. */
  lemma {:induction false} AtMostOneActionPerIdle(s: CallSession, evs: seq<Event>)
    ensures |Emitted(Run(s, evs).actions)| <= CountActiveIdles(evs)
    decreases |evs|
  {
    if evs != [] {
      var r := Step(s, evs[0]);
      var t := Run(r.next, evs[1..]);
      AtMostOneActionPerIdle(r.next, evs[1..]);
      assert Run(s, evs).actions == [r.action] + t.actions;
      assert ([r.action] + t.actions)[1..] == t.actions;
      if r.action.Some? {
        OnlyIdleRaises(s, evs[0]);
      }
    }
  }

  /** Within a call (no IDLE taken in), the last non-empty number wins: the
      stored number at the end is the number of the last callback that
      carried one, or the number stored before when none did. */
  lemma {:induction false} LastNumberWins(s: CallSession, evs: seq<Event>)
    requires forall k :: 0 <= k < |evs| ==> !IsActive(evs[k], CALL_STATE_IDLE)
    ensures Run(s, evs).final.incomingNumber == LastNumber(evs, s.incomingNumber)
    decreases |evs|
  {
    if evs != [] {
      var front := evs[..|evs| - 1];
      var e := evs[|evs| - 1];
      assert evs == front + [e];
      LastNumberWins(s, front);
      RunAppend(s, front, [e]);
    }
  }

  /** No number leaks from one call to the next: after an IDLE the listener
      takes in, a call in which no callback carries a number raises nothing. */
  lemma {:induction false} NoNumberNoAction(s: CallSession, evs: seq<Event>)
    requires s.incomingNumber == None
    requires forall k :: 0 <= k < |evs| ==> IsNullOrEmpty(evs[k].number)
    ensures Run(s, evs).final.incomingNumber == None
    ensures Emitted(Run(s, evs).actions) == []
    decreases |evs|
  {
    if evs != [] {
      var r := Step(s, evs[0]);
      var t := Run(r.next, evs[1..]);
      NoNumberNoAction(r.next, evs[1..]);
      assert Run(s, evs).actions == [r.action] + t.actions;
      assert ([r.action] + t.actions)[1..] == t.actions;
    }
  }

  /** The action raised at the IDLE that ends a call carries the last
      non-empty number of that call, never an earlier caller's. */
  lemma ActionCarriesLastNumber(evs: seq<Event>, idle: Event)
    requires forall k :: 0 <= k < |evs| ==> !IsActive(evs[k], CALL_STATE_IDLE)
    requires IsActive(idle, CALL_STATE_IDLE)
    ensures var a := Run(Initial, evs + [idle]).actions[|evs|];
            a.Some? ==> Some(a.value.number) == LastNumber(evs + [idle], None)
  {
    LastNumberWins(Initial, evs);
    RunAppend(Initial, evs, [idle]);
    assert (evs + [idle])[..|evs|] == evs;
  }

  // ---------------------------------------------------------------------
  // The listener object

  class MissedCallListener {
    var isIncoming: bool
    var isCallAnswered: bool
    var incomingNumber: Option<string>

    /** The fields as a value. */
    function Session(): CallSession
      reads this
    {
      CallSession(isIncoming, isCallAnswered, incomingNumber)
    }

    constructor ()
      ensures Session() == Initial
    {
      isIncoming := false;
      isCallAnswered := false;
      incomingNumber := None;
    }

    /** `onCallStateChanged`: returns the action in place of calling
        `showMissedCallNotification`. */
    method OnCallStateChanged(state: int, number: Option<string>, serviceActive: bool, storedMessage: Option<string>)
      returns (action: Option<MissedCall>)
      modifies this
      ensures StepResult(Session(), action) == Step(old(Session()), Event(state, number, serviceActive, storedMessage))
    {
      action := None;
      if !serviceActive {
        return;
      }
      if !IsNullOrEmpty(number) {
        incomingNumber := number;
      }
      if state == CALL_STATE_RINGING {
        isIncoming := true;
        isCallAnswered := false;
      } else if state == CALL_STATE_OFFHOOK {
        if isIncoming {
          isCallAnswered := true;
        }
      } else if state == CALL_STATE_IDLE {
        if isIncoming && !isCallAnswered && incomingNumber != None {
          var message := storedMessage.GetOr(DEFAULT_MESSAGE);
          action := Some(MissedCall(incomingNumber.value, message));
        }
        isIncoming := false;
        isCallAnswered := false;
        incomingNumber := None;
      }
    }
  }

  /** A caller of the listener: a missed call, an answered call, and a
      call whose number arrives only on the second RINGING. */
  method ListenerScenario() {
    var listener := new MissedCallListener();
    var a := listener.OnCallStateChanged(CALL_STATE_RINGING, Some("3001234567"), true, None);
    assert a == None;
    a := listener.OnCallStateChanged(CALL_STATE_IDLE, None, true, Some("Hola"));
    assert a == Some(MissedCall("3001234567", "Hola"));

    a := listener.OnCallStateChanged(CALL_STATE_RINGING, Some("3001234567"), true, None);
    a := listener.OnCallStateChanged(CALL_STATE_OFFHOOK, None, true, None);
    a := listener.OnCallStateChanged(CALL_STATE_IDLE, None, true, None);
    assert a == None;

    a := listener.OnCallStateChanged(CALL_STATE_RINGING, None, true, None);
    a := listener.OnCallStateChanged(CALL_STATE_RINGING, Some("3009876543"), true, None);
    a := listener.OnCallStateChanged(CALL_STATE_IDLE, None, true, None);
    assert a == Some(MissedCall("3009876543", DEFAULT_MESSAGE));
  }
}
