/** The reminder check of `src/services/reminderService.js`: every upcoming
    event is announced to the owner once, and an event counts as announced
    only after its message was delivered. Google authorisation, the event
    fetch, the owner number and message delivery are inputs; the clock and
    the one-minute interval are not modelled. */
module ReminderService {
  import opened Wrappers
  import opened JsText

  /** How many minutes ahead the check looks. */
  const ReminderWindowMinutes: nat := 15

  /** One upcoming event. `summary` is `None` when missing (it then prints as
      `undefined`); `start` is the start time as `toLocaleTimeString` prints
      it, or `None` when the event has no `start` object, whose `.dateTime`
      access throws. */
  datatype Event = Event(id: string, summary: Option<string>, start: Option<string>)

  /** Message delivery: whether `client.sendMessage(target, message)` succeeded. */
  type Sender = (string, string) -> bool

  /** The WhatsApp id the reminders go to: `OWNER_NUMBER`, with `@c.us`
      appended when it has no `@`. */
  function OwnerTarget(ownerNumber: string): (r: string)
    ensures '@' in r
    ensures '@' in ownerNumber ==> r == ownerNumber
    ensures '@' !in ownerNumber ==> r == ownerNumber + "@c.us"
  {
    if '@' in ownerNumber then ownerNumber
    else
      var r := ownerNumber + "@c.us";
      assert r[|ownerNumber|] == '@';
      r
  }

  /** Normalising an owner id twice changes nothing. */
  lemma OwnerTargetIdempotent(ownerNumber: string)
    ensures OwnerTarget(OwnerTarget(ownerNumber)) == OwnerTarget(ownerNumber)
  {
  }

  /** The reminder text for an event that starts at `time`. */
  function ReminderMessage(e: Event, time: string): (r: string)
    ensures Includes(r, "\"" + e.summary.GetOr("undefined") + "\"")
  {
    var head := "⏰ *PENGINGAT ACARA*\n\n";
    var quoted := "\"" + e.summary.GetOr("undefined") + "\"";
    var r := head + quoted + "\n\nAkan dimulai pukul " + time + " (±15 menit lagi).\nSiap-siap ya! \U{1F680}";
    assert OccursAt(r, quoted, |head|) by {
      assert r[|head|..|head| + |quoted|] == quoted;
    }
    OccursIncludes(r, quoted, |head|);
    r
  }

  /** What the loop over `events` leaves behind, starting from the reminded
      ids `ids`: the new set of reminded ids and the messages delivered, in
      order. An event without `start` throws and ends the loop. */
  function Process(ids: set<string>, events: seq<Event>, target: string, send: Sender): (set<string>, seq<string>)
    decreases |events|
  {
    if events == [] then (ids, [])
    else
      var e := events[0];
      if e.id in ids then Process(ids, events[1..], target, send)
      else if e.start.None? then (ids, [])
      else
        var message := ReminderMessage(e, e.start.value);
        if send(target, message) then
          var rest := Process(ids + {e.id}, events[1..], target, send);
          (rest.0, [message] + rest.1)
        else Process(ids, events[1..], target, send)
  }

  /** Some event of `events` with id `id` has a start time and its reminder
      was delivered. */
  predicate Announced(events: seq<Event>, id: string, target: string, send: Sender) {
    exists k :: 0 <= k < |events| && events[k].id == id && events[k].start.Some? &&
      send(target, ReminderMessage(events[k], events[k].start.value))
  }

  /** The reminded ids only grow, every new id is that of an event whose
      reminder was delivered, and each delivery adds exactly one new id, so
      no event is announced twice. */
  lemma ProcessCorrect(ids: set<string>, events: seq<Event>, target: string, send: Sender)
    ensures var (after, sent) := Process(ids, events, target, send);
      ids <= after &&
      (forall id :: id in after - ids ==> Announced(events, id, target, send)) &&
      |sent| == |after - ids|
  {
    ProcessCounts(ids, events, target, send);
    ProcessAnnounced(ids, events, target, send);
  }

  /** The reminded ids only grow, by one id per delivered message. */
  lemma {:induction false} ProcessCounts(ids: set<string>, events: seq<Event>, target: string, send: Sender)
    decreases |events|
    ensures ids <= Process(ids, events, target, send).0
    ensures |Process(ids, events, target, send).1| == |Process(ids, events, target, send).0 - ids|
  {
    if events != [] {
      var e := events[0];
      if e.id in ids || e.start.None? || !send(target, ReminderMessage(e, e.start.value)) {
        ProcessCounts(ids, events[1..], target, send);
      } else {
        var ids' := ids + {e.id};
        ProcessCounts(ids', events[1..], target, send);
        var after := Process(ids', events[1..], target, send).0;
        assert after - ids == (after - ids') + {e.id};
      }
    }
  }

  /** Every new reminded id belongs to an event whose reminder was delivered. */
  lemma {:induction false} ProcessAnnounced(ids: set<string>, events: seq<Event>, target: string, send: Sender)
    decreases |events|
    ensures forall id :: id in Process(ids, events, target, send).0 - ids ==> Announced(events, id, target, send)
  {
    if events != [] {
      var e := events[0];
      var tail := events[1..];
      if e.id in ids || e.start.None? || !send(target, ReminderMessage(e, e.start.value)) {
        ProcessAnnounced(ids, tail, target, send);
        ShiftWitness(ids, Process(ids, tail, target, send).0, events, target, send);
      } else {
        var ids' := ids + {e.id};
        ProcessAnnounced(ids', tail, target, send);
        var after := Process(ids', tail, target, send).0;
        ShiftWitness(ids', after, events, target, send);
        assert Announced(events, e.id, target, send) by {
          assert events[0] == e;
        }
      }
    }
  }

  /** A witness in the tail of the event list is one in the whole list. */
  lemma ShiftWitness(ids: set<string>, after: set<string>, events: seq<Event>, target: string, send: Sender)
    requires events != []
    requires forall id :: id in after - ids ==> Announced(events[1..], id, target, send)
    ensures forall id :: id in after - ids ==>
      Announced(events, id, target, send)
  {
    forall id | id in after - ids
      ensures Announced(events, id, target, send)
    {
      var k :| 0 <= k < |events[1..]| && events[1..][k].id == id && events[1..][k].start.Some? &&
        send(target, ReminderMessage(events[1..][k], events[1..][k].start.value));
      assert events[k + 1] == events[1..][k];
    }
  }

  /** An event whose id was already reminded produces no message. */
  lemma RemindedEventSkipped(ids: set<string>, e: Event, events: seq<Event>, target: string, send: Sender)
    requires e.id in ids
    ensures Process(ids, [e] + events, target, send) == Process(ids, events, target, send)
  {
    assert ([e] + events)[1..] == events;
  }

  /** A failed delivery leaves the event unreminded, so the next check tries
      it again. */
  lemma FailedSendRetried(ids: set<string>, e: Event, target: string, send: Sender)
    requires e.id !in ids && e.start.Some? && !send(target, ReminderMessage(e, e.start.value))
    ensures Process(ids, [e], target, send) == (ids, [])
  {
    assert [e][1..] == [];
  }

  /** One step of the loop over `events`, from position `i`. */
  lemma ProcessAt(ids: set<string>, events: seq<Event>, i: nat, target: string, send: Sender)
    requires i < |events|
    ensures var e := events[i];
      var rest := Process(ids + {e.id}, events[i + 1..], target, send);
      Process(ids, events[i..], target, send) ==
        if e.id in ids then Process(ids, events[i + 1..], target, send)
        else if e.start.None? then (ids, [])
        else if send(target, ReminderMessage(e, e.start.value)) then
          (rest.0, [ReminderMessage(e, e.start.value)] + rest.1)
        else Process(ids, events[i + 1..], target, send)
  {
    assert events[i..][0] == events[i] && events[i..][1..] == events[i + 1..];
  }

  class Reminders {
    /** `remindedEventIds`. */
    var remindedEventIds: set<string>
    /** The reminder messages delivered to the owner so far, in order. */
    var outbox: seq<string>

    constructor ()
      ensures remindedEventIds == {} && outbox == []
    {
      remindedEventIds := {};
      outbox := [];
    }

    /** `checkAndSendReminders(client)`. `authorized` is whether `authorize()`
        gave a client; `events` is `None` when the fetch throws or gives
        nothing; `ownerNumber` is `None` when `OWNER_NUMBER` is unset. Every
        error is caught, so the check always returns normally. */
    method CheckAndSendReminders(authorized: bool, events: Option<seq<Event>>, ownerNumber: Option<string>, send: Sender)
      modifies this
      ensures !authorized || events.None? || events.value == [] || ownerNumber.None? || ownerNumber.value == "" ==>
        remindedEventIds == old(remindedEventIds) && outbox == old(outbox)
      ensures authorized && events.Some? && events.value != [] && ownerNumber.Some? && ownerNumber.value != "" ==>
        var (after, sent) := Process(old(remindedEventIds), events.value, OwnerTarget(ownerNumber.value), send);
        remindedEventIds == after && outbox == old(outbox) + sent
    {
      if !authorized || events.None? || events.value == [] {
        return;
      }
      if ownerNumber.None? || ownerNumber.value == "" {
        return;
      }
      var targetId := ownerNumber.value;
      if '@' !in targetId {
        targetId := targetId + "@c.us";
      }
      var list := events.value;
      ghost var total := Process(remindedEventIds, list, targetId, send);
      ghost var outbox0 := outbox;
      var i := 0;
      while i < |list|
        invariant 0 <= i <= |list|
        invariant targetId == OwnerTarget(ownerNumber.value)
        invariant Process(remindedEventIds, list[i..], targetId, send).0 == total.0
        invariant outbox + Process(remindedEventIds, list[i..], targetId, send).1 == outbox0 + total.1
      {
        var event := list[i];
        ProcessAt(remindedEventIds, list, i, targetId, send);
        if event.id in remindedEventIds {
          i := i + 1;
          continue;
        }
        if event.start.None? {
          // the TypeError is caught by the outer `try`, ending the check
          assert outbox == outbox0 + total.1;
          return;
        }
        var message := ReminderMessage(event, event.start.value);
        if send(targetId, message) {
          ghost var rest := Process(remindedEventIds + {event.id}, list[i + 1..], targetId, send);
          AppendAssoc(outbox, [message], rest.1);
          outbox := outbox + [message];
          remindedEventIds := remindedEventIds + {event.id};
        }
        i := i + 1;
      }
      assert list[|list|..] == [];
    }
  }
}
