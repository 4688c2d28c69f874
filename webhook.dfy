/**
 * The inbound-call webhook: the dispatcher that reacts to one call-control
 * event by issuing answer, menu and transfer commands and by recording,
 * in two process-wide sets, which calls have been routed to a department
 * and which have hung up.
 *
 * The outbound commands are not performed here: a reaction lists the
 * commands issued, in order, and the platform's verdict on the answer and
 * on the transfer is an input (the menu's verdict is never looked at).
 */
module Webhook {
  import opened Events
  import opened Text
  import opened Digits

  const CallInitiated := "call.initiated"
  const GatherEnded := "call.gather.ended"
  const CallHangup := "call.hangup"

  /** A command sent to the platform's call-control API. */
  datatype Command =
    | Answer(call: string)
    | StartMenu(call: string)
    | Transfer(call: string, to: string)

  /** The `status` object returned to the webhook sender (with
      HTTP 200). `Received` is the hangup reply, which carries no event;
      `ReceivedEvent` echoes the event type of an event nobody handles. */
  datatype Status =
    | MissingCallControlId
    | AnswerFailed
    | AnsweredAndMenuStarted
    | GatherIgnored
    | GatherProcessed(digit: string)
    | Received
    | ReceivedEvent(eventType: Option<string>)

  /** The routed and ended sets. */
  datatype Registry = Registry(routed: set<string>, ended: set<string>)

  /** What handling one event does: the sets afterwards, the commands issued
      in order, and the reply. */
  datatype Reaction = Reaction(after: Registry, commands: seq<Command>, status: Status)

  /** The call-control id of a payload, when it is truthy. */
  function CallId(p: Payload): (id: Option<string>)
    ensures id.Some? <==> Present(p.callControlId)
    ensures id.Some? ==> id == p.callControlId
  {
    if Present(p.callControlId) then p.callControlId else None
  }

  predicate IsTransferOf(c: Command, x: string) {
    c.Transfer? && c.call == x
  }

  /** How many transfers of call `x` the commands hold. */
  function TransfersIn(commands: seq<Command>, x: string): (n: nat)
    ensures n <= |commands|
    ensures n == 0 <==> forall i :: 0 <= i < |commands| ==> !IsTransferOf(commands[i], x)
  {
    if commands == [] then 0
    else (if IsTransferOf(commands[0], x) then 1 else 0) + TransfersIn(commands[1..], x)
  }

  /** A gather event that is dropped: its call id is missing, or the call
      is already routed or already ended. */
  predicate GatherSuppressed(reg: Registry, ev: Event) {
    && ev.eventType == Some(GatherEnded)
    && (var id := CallId(ev.payload);
        id.None? || id.value in reg.routed || id.value in reg.ended)
  }

  /** The reaction to one event given the current sets and the platform's
      verdicts on an answer and on a transfer. */
  function Dispatch(reg: Registry, ev: Event, answerOk: bool, transferOk: bool): (r: Reaction)
    // Both sets only grow.
    ensures reg.routed <= r.after.routed && reg.ended <= r.after.ended
    // Every command is about the call the event names.
    ensures forall c :: c in r.commands ==> CallId(ev.payload) == Some(c.call)
    // At most one transfer, and never one of a routed or ended call.
    ensures forall x :: TransfersIn(r.commands, x) <= 1
    ensures forall x :: TransfersIn(r.commands, x) > 0 ==> x !in reg.routed && x !in reg.ended
    // A call becomes routed exactly when its transfer was issued and accepted.
    ensures forall x :: x in r.after.routed <==> x in reg.routed || (transferOk && TransfersIn(r.commands, x) > 0)
    // A call becomes ended exactly when a hangup names it.
    ensures forall x :: x in r.after.ended <==>
      x in reg.ended || (ev.eventType == Some(CallHangup) && CallId(ev.payload) == Some(x))
    // A duplicate or late gather does nothing.
    ensures GatherSuppressed(reg, ev) ==> r == Reaction(reg, [], GatherIgnored)
  {
    var id := CallId(ev.payload);
    if ev.eventType == Some(CallInitiated) then
      if id.None? then Reaction(reg, [], MissingCallControlId)
      else if !answerOk then Reaction(reg, [Answer(id.value)], AnswerFailed)
      else
        Reaction(reg, [Answer(id.value), StartMenu(id.value)], AnsweredAndMenuStarted)
    else if ev.eventType == Some(GatherEnded) then
      if id.None? || id.value in reg.routed || id.value in reg.ended then Reaction(reg, [], GatherIgnored)
      else
        var digit := ExtractDigits(ev.payload);
        match Department(digit)
        case Some(dept) =>
          var after := if transferOk then reg.(routed := reg.routed + {id.value}) else reg;
          Reaction(after, [Transfer(id.value, DepartmentUris[dept])], GatherProcessed(digit))
        case None =>
          Reaction(reg, [StartMenu(id.value)], GatherProcessed(digit))
    else if ev.eventType == Some(CallHangup) then
      Reaction(if id.Some? then reg.(ended := reg.ended + {id.value}) else reg, [], Received)
    else
      Reaction(reg, [], ReceivedEvent(ev.eventType))
  }

  /** `call.initiated`: one answer; on success one menu, whatever the menu's
      own outcome; the sets are left alone. */
  lemma Initiated(reg: Registry, ev: Event, answerOk: bool, transferOk: bool)
    requires ev.eventType == Some(CallInitiated)
    ensures var r := Dispatch(reg, ev, answerOk, transferOk);
      && r.after == reg
      && (CallId(ev.payload).None? ==> r.commands == [] && r.status == MissingCallControlId)
      && (CallId(ev.payload).Some? && !answerOk ==>
            r.commands == [Answer(ev.payload.callControlId.value)] && r.status == AnswerFailed)
      && (CallId(ev.payload).Some? && answerOk ==>
            && r.commands == [Answer(ev.payload.callControlId.value), StartMenu(ev.payload.callControlId.value)]
            && r.status == AnsweredAndMenuStarted)
  {
  }

  /** `call.gather.ended` for a call neither routed nor ended: a mapped
      digit issues exactly one transfer to its department's address and
      routes the call iff the transfer was accepted; any other digit replays
      the menu and issues no transfer. The reply echoes the digit either
      way, and the ended set is untouched. */
  lemma GatherProcessedReaction(reg: Registry, ev: Event, answerOk: bool, transferOk: bool)
    requires ev.eventType == Some(GatherEnded) && !GatherSuppressed(reg, ev)
    ensures var r := Dispatch(reg, ev, answerOk, transferOk);
      var id := ev.payload.callControlId.value;
      var digit := ExtractDigits(ev.payload);
      && r.status == GatherProcessed(digit)
      && r.after.ended == reg.ended
      && (Department(digit).Some? ==>
            && r.commands == [Transfer(id, DepartmentUris[Department(digit).value])]
            && r.after.routed == if transferOk then reg.routed + {id} else reg.routed)
      && (Department(digit).None? ==> r.commands == [StartMenu(id)] && r.after == reg)
  {
  }

  /** `call.hangup`: a named call is marked ended even when it already was,
      routed or not; nothing is issued and the routed set is untouched. */
  lemma Hangup(reg: Registry, ev: Event, answerOk: bool, transferOk: bool)
    requires ev.eventType == Some(CallHangup)
    ensures var r := Dispatch(reg, ev, answerOk, transferOk);
      && r.commands == [] && r.status == Received && r.after.routed == reg.routed
      && (CallId(ev.payload).Some? ==> ev.payload.callControlId.value in r.after.ended)
      && (CallId(ev.payload).None? ==> r.after == reg)
  {
  }

  /** Any other event type, or none: nothing issued, nothing recorded, and
      the reply echoes the event type. */
  lemma OtherEvent(reg: Registry, ev: Event, answerOk: bool, transferOk: bool)
    requires ev.eventType !in {Some(CallInitiated), Some(GatherEnded), Some(CallHangup)}
    ensures Dispatch(reg, ev, answerOk, transferOk) == Reaction(reg, [], ReceivedEvent(ev.eventType))
  {
  }

  /** One delivered event together with the platform's verdicts on the
      answer and transfer it may cause. */
  datatype Delivery = Delivery(event: Event, answerOk: bool, transferOk: bool)

  /** The sets after handling the deliveries one at a time, in order. */
  function Run(reg: Registry, trace: seq<Delivery>): (final: Registry)
    ensures reg.routed <= final.routed && reg.ended <= final.ended
    decreases |trace|
  {
    if trace == [] then reg
    else
      var d := trace[0];
      Run(Dispatch(reg, d.event, d.answerOk, d.transferOk).after, trace[1..])
  }

  /** How many transfers of call `x` handling the deliveries issues. */
  function Transfers(reg: Registry, trace: seq<Delivery>, x: string): nat
    decreases |trace|
  {
    if trace == [] then 0
    else
      var d := trace[0];
      var r := Dispatch(reg, d.event, d.answerOk, d.transferOk);
      TransfersIn(r.commands, x) + Transfers(r.after, trace[1..], x)
  }

  /** How many of those transfers the platform accepted. */
  function AcceptedTransfers(reg: Registry, trace: seq<Delivery>, x: string): nat
    decreases |trace|
  {
    if trace == [] then 0
    else
      var d := trace[0];
      var r := Dispatch(reg, d.event, d.answerOk, d.transferOk);
      (if d.transferOk then TransfersIn(r.commands, x) else 0) + AcceptedTransfers(r.after, trace[1..], x)
  }

  /** Over any sequence of deliveries, a call is accepted for transfer at
      most once, and exactly once if it ends up newly routed. */
  lemma {:induction false} RoutedExactlyOnce(reg: Registry, trace: seq<Delivery>, x: string)
    ensures AcceptedTransfers(reg, trace, x) == if x in Run(reg, trace).routed && x !in reg.routed then 1 else 0
    decreases |trace|
  {
    if trace != [] {
      var d := trace[0];
      var r := Dispatch(reg, d.event, d.answerOk, d.transferOk);
      RoutedExactlyOnce(r.after, trace[1..], x);
    }
  }

  /** Once a call is routed or ended, no sequence of deliveries ever
      transfers it again. */
  lemma {:induction false} NoTransferOfSettledCall(reg: Registry, trace: seq<Delivery>, x: string)
    requires x in reg.routed || x in reg.ended
    ensures Transfers(reg, trace, x) == 0
    decreases |trace|
  {
    if trace != [] {
      var d := trace[0];
      var r := Dispatch(reg, d.event, d.answerOk, d.transferOk);
      NoTransferOfSettledCall(r.after, trace[1..], x);
    }
  }

  /** After a hangup of call `x`, whatever arrives later, `x` is never
      transferred. */
  lemma {:induction false} NoTransferAfterHangup(reg: Registry, trace: seq<Delivery>, x: string)
    requires trace != [] && trace[0].event.eventType == Some(CallHangup)
    requires trace[0].event.payload.callControlId == Some(x) && x != ""
    ensures Transfers(reg, trace, x) == 0
  {
    var d := trace[0];
    var r := Dispatch(reg, d.event, d.answerOk, d.transferOk);
    NoTransferOfSettledCall(r.after, trace[1..], x);
  }

  /** A transfer the platform rejects leaves the call unrouted, so the same
      gather event delivered again issues a second transfer. */
  lemma RejectedTransferRetried(reg: Registry, ev: Event, answerOk: bool, transferOk: bool)
    requires ev.eventType == Some(GatherEnded) && !GatherSuppressed(reg, ev)
    requires Department(ExtractDigits(ev.payload)).Some?
    ensures var x := ev.payload.callControlId.value;
      Transfers(reg, [Delivery(ev, answerOk, false), Delivery(ev, answerOk, transferOk)], x) == 2
  {
    var x := ev.payload.callControlId.value;
    var d2 := Delivery(ev, answerOk, transferOk);
    var r1 := Dispatch(reg, ev, answerOk, false);
    var r2 := Dispatch(reg, ev, answerOk, transferOk);
    GatherProcessedReaction(reg, ev, answerOk, false);
    GatherProcessedReaction(reg, ev, answerOk, transferOk);
    assert r1.after == reg;
    OneTransfer(r1.commands, x);
    OneTransfer(r2.commands, x);
    assert Transfers(reg, [d2], x) == TransfersIn(r2.commands, x) + Transfers(r2.after, [], x);
    assert [Delivery(ev, answerOk, false), d2][1..] == [d2];
  }

  /** The lone transfer a fresh gather issues counts once. */
  lemma OneTransfer(commands: seq<Command>, x: string)
    requires |commands| == 1 && IsTransferOf(commands[0], x)
    ensures TransfersIn(commands, x) == 1
  {
    assert commands[1..] == [];
  }

  /** The process-wide call state of the webhook: the calls transferred to a
      department and the calls that have hung up. */
  class CallRegistry {
    var routed: set<string>
    var ended: set<string>

    constructor ()
      ensures routed == {} && ended == {}
    {
      routed, ended := {}, {};
    }

    function State(): Registry
      reads this
    {
      Registry(routed, ended)
    }

    /** Handle one event: issue its commands in order, update the sets, and
        return the reply. */
    method Handle(ev: Event, answerOk: bool, transferOk: bool) returns (status: Status, commands: seq<Command>)
      modifies this
      ensures Reaction(State(), commands, status) == Dispatch(old(State()), ev, answerOk, transferOk)
      ensures old(routed) <= routed && old(ended) <= ended
    {
      ghost var reaction := Dispatch(State(), ev, answerOk, transferOk);
      commands := [];
      var ccid := ev.payload.callControlId;
      if ev.eventType == Some(CallInitiated) {
        if !Present(ccid) {
          return MissingCallControlId, commands;
        }
        commands := commands + [Answer(ccid.value)];
        if !answerOk {
          return AnswerFailed, commands;
        }
        commands := commands + [StartMenu(ccid.value)];
        status := AnsweredAndMenuStarted;
      } else if ev.eventType == Some(GatherEnded) {
        if !Present(ccid) || ccid.value in routed || ccid.value in ended {
          return GatherIgnored, commands;
        }
        var digit := ExtractDigits(ev.payload);
        var dept := Department(digit);
        assert reaction.status == GatherProcessed(digit);
        if dept.Some? {
          commands := commands + [Transfer(ccid.value, DepartmentUris[dept.value])];
          if transferOk {
            routed := routed + {ccid.value};
          }
        } else {
          commands := commands + [StartMenu(ccid.value)];
        }
        status := GatherProcessed(digit);
      } else if ev.eventType == Some(CallHangup) {
        if Present(ccid) {
          ended := ended + {ccid.value};
        }
        status := Received;
      } else {
        status := ReceivedEvent(ev.eventType);
      }
    }
  }

  /** One call's life: answered with its menu, routed to support on digit 2,
      a second gather ignored, then a hangup that leaves it both routed and
      ended. */
  method CallLifecycle() {
    var calls := new CallRegistry();
    var p := EmptyPayload.(callControlId := Some("abc"));

    var status, commands := calls.Handle(Event(Some(CallInitiated), p), true, true);
    assert status == AnsweredAndMenuStarted && commands == [Answer("abc"), StartMenu("abc")];

    StripSurrounded("", "2", "");
    assert "" + "2" + "" == "2";
    status, commands := calls.Handle(Event(Some(GatherEnded), p.(digit := Some("2"))), true, true);
    assert status == GatherProcessed("2");
    assert commands == [Transfer("abc", DepartmentUris["support"])];
    assert "abc" in calls.routed;

    status, commands := calls.Handle(Event(Some(GatherEnded), p.(digit := Some("3"))), true, true);
    assert status == GatherIgnored && commands == [];

    status, commands := calls.Handle(Event(Some(CallHangup), p), true, true);
    assert status == Received && commands == [];
    assert "abc" in calls.routed && "abc" in calls.ended;
  }
}
