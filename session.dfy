/**
 * The dialing session of the dashboard page (app/dashboard/page.tsx:161-418):
 * the lead list, the dial queue and the position in it, the screen shown, the
 * session counters, and the timers that move the session to the next lead.
 *
 * Timers are explicit: scheduling one records it in `pending`, `clearTimeout`
 * removes it, and `FireTimer` is the moment the browser runs it. Requests to
 * the server are recorded in `patches` and never answered.
 */
module Session {
  import opened Js
  import opened Types
  import opened Constants
  import opened Calendar
  import opened Queue
  import Csv

  // ---------------------------------------------------------------- lead updates

  /** The `updater` of `updateLeadStatus`, applied to one lead. */
  function UpdateLead(l: Lead, id: int, status: string, vmCount: Option<int>): Lead
  {
    if l.id == id then l.(status := status, vmCount := if vmCount.Some? then vmCount.value else l.vmCount) else l
  }

  /** `prev.map(updater)`. */
  function UpdateById(ls: seq<Lead>, id: int, status: string, vmCount: Option<int>): (r: seq<Lead>)
    ensures |r| == |ls|
  {
    seq(|ls|, i requires 0 <= i < |ls| => UpdateLead(ls[i], id, status, vmCount))
  }

  /**
   * Only the leads with the id change, and of those only the status and (when one is
   * given) the voicemail count; every position keeps its id.
   */
  lemma UpdateByIdFacts(ls: seq<Lead>, id: int, status: string, vmCount: Option<int>)
    ensures forall i | 0 <= i < |ls| :: UpdateById(ls, id, status, vmCount)[i].id == ls[i].id
    ensures forall i | 0 <= i < |ls| && ls[i].id != id :: UpdateById(ls, id, status, vmCount)[i] == ls[i]
    ensures forall i | 0 <= i < |ls| && ls[i].id == id ::
      && UpdateById(ls, id, status, vmCount)[i].status == status
      && UpdateById(ls, id, status, vmCount)[i].vmCount == (if vmCount.Some? then vmCount.value else ls[i].vmCount)
      && UpdateById(ls, id, status, vmCount)[i].(status := ls[i].status, vmCount := ls[i].vmCount) == ls[i]
  {
  }

  /** Setting the same status twice is setting it once; updates of different leads commute. */
  lemma UpdateByIdLaws(ls: seq<Lead>, id: int, status: string, vm: Option<int>, id2: int, status2: string, vm2: Option<int>)
    ensures UpdateById(UpdateById(ls, id, status, vm), id, status, vm) == UpdateById(ls, id, status, vm)
    ensures id != id2 ==>
      UpdateById(UpdateById(ls, id, status, vm), id2, status2, vm2)
      == UpdateById(UpdateById(ls, id2, status2, vm2), id, status, vm)
  {
  }

  /** The voicemail count after one more voicemail: `Math.min(vmCount + 1, 3)`. */
  function NextVmCount(vmCount: int): (r: int)
    ensures r <= 3
    ensures vmCount >= 0 ==> 1 <= r
  {
    if vmCount + 1 < 3 then vmCount + 1 else 3
  }

  /** The status "Left VM" writes. */
  function VmStatus(n: int): string
  {
    IntToString(n) + "x VM"
  }

  /**
   * From a non-negative count, "Left VM" writes one of the three voicemail statuses,
   * and reading that status back as the lead parser does gives the new count.
   */
  lemma VmStatusRoundTrip(vmCount: int)
    requires vmCount >= 0
    ensures VmStatus(NextVmCount(vmCount)) in {"1x VM", "2x VM", "3x VM"}
    ensures Csv.VmCountOf(VmStatus(NextVmCount(vmCount))) == NextVmCount(vmCount)
  {
    var n := NextVmCount(vmCount);
    if n == 1 {
      assert VmStatus(n) == "1x VM";
    } else if n == 2 {
      assert VmStatus(n) == "2x VM";
    } else {
      assert VmStatus(n) == "3x VM";
    }
  }

  // ---------------------------------------------------------------- outcomes

  /** Component-wise sum of two sets of counters. */
  function AddStats(a: SessionStats, d: SessionStats): (r: SessionStats)
    ensures StatsTotal(r) == StatsTotal(a) + StatsTotal(d)
  {
    SessionStats(a.calls + d.calls, a.voicemails + d.voicemails, a.appointments + d.appointments,
      a.sold + d.sold, a.callbacks + d.callbacks, a.badNumbers + d.badNumbers, a.notInterested + d.notInterested)
  }

  /** Every counter is 0 or 1. */
  predicate Unit(d: SessionStats)
  {
    && 0 <= d.calls <= 1 && 0 <= d.voicemails <= 1 && 0 <= d.appointments <= 1 && 0 <= d.sold <= 1
    && 0 <= d.callbacks <= 1 && 0 <= d.badNumbers <= 1 && 0 <= d.notInterested <= 1
  }

  lemma AddUnitGrows(a: SessionStats, d: SessionStats)
    requires Unit(d)
    ensures StatsLe(a, AddStats(a, d))
  {
  }

  /** The post-call outcomes PostCallView offers. */
  const OutcomeKeys: set<string> := {"followup", "appointment", "sold", "not_interested", "bad_number"}

  /** The status `handleOutcome` writes for an outcome key; "Follow Up" when the key is unknown. */
  function OutcomeStatus(outcome: string): string
  {
    if outcome == "appointment" then "Scheduled Appt"
    else if outcome == "sold" then "SOLD"
    else if outcome == "not_interested" then "Not Interested"
    else if outcome == "bad_number" then "Bad #"
    else "Follow Up"
  }

  /** The counters `handleOutcome` adds: one for a known key, none otherwise. */
  function OutcomeDelta(outcome: string): (r: SessionStats)
    ensures Unit(r) && r.calls == 0 && r.voicemails == 0
  {
    var z := InitialStats;
    if outcome == "followup" then z.(callbacks := 1)
    else if outcome == "appointment" then z.(appointments := 1)
    else if outcome == "sold" then z.(sold := 1)
    else if outcome == "not_interested" then z.(notInterested := 1)
    else if outcome == "bad_number" then z.(badNumbers := 1)
    else z
  }

  /**
   * Each outcome counts once, in its own counter; an unknown one is a follow-up
   * counted nowhere; and exactly the sold, not-interested and bad-number outcomes
   * give a status that keeps the lead out of later queues.
   */
  lemma OutcomeTable(outcome: string)
    ensures OutcomeStatus(outcome) in StatusStyles
    ensures OutcomeStatus(outcome) in SkippedStatuses <==> outcome in {"sold", "not_interested", "bad_number"}
    ensures StatsTotal(OutcomeDelta(outcome)) == if outcome in OutcomeKeys then 1 else 0
    ensures OutcomeDelta(outcome).callbacks == 1 <==> outcome == "followup"
    ensures OutcomeDelta(outcome).appointments == 1 <==> outcome == "appointment"
    ensures OutcomeDelta(outcome).sold == 1 <==> outcome == "sold"
    ensures OutcomeDelta(outcome).notInterested == 1 <==> outcome == "not_interested"
    ensures OutcomeDelta(outcome).badNumbers == 1 <==> outcome == "bad_number"
    ensures outcome !in OutcomeKeys ==> OutcomeStatus(outcome) == "Follow Up" && OutcomeDelta(outcome) == InitialStats
  {
    if outcome in OutcomeKeys {
      assert outcome == "followup" || outcome == "appointment" || outcome == "sold" || outcome == "not_interested" || outcome == "bad_number";
    } else {
      assert OutcomeDelta(outcome) == InitialStats;
    }
  }

  // ---------------------------------------------------------------- timers

  /** The 1500 ms auto-advance kept in `autoAdvanceRef`, or the untracked 800 ms one after an outcome. */
  datatype TimerKind = AutoAdvance | OutcomeAdvance

  /** A scheduled call of `advanceToNext`. */
  datatype Timer = Timer(id: nat, kind: TimerKind)

  /** `clearTimeout(id)`: the timer with that id, if still pending, will not run. */
  function ClearTimer(ts: seq<Timer>, id: nat): (r: seq<Timer>)
    ensures |r| <= |ts|
    ensures forall t :: t in r <==> t in ts && t.id != id
  {
    if ts == [] then []
    else (if ts[0].id == id then [] else [ts[0]]) + ClearTimer(ts[1..], id)
  }

  /** A PATCH request `updateLeadStatus` sends; `vmCount` is None when the body has no `vm_count`. */
  datatype LeadPatch = LeadPatch(id: int, status: string, vmCount: Option<int>)

  // ---------------------------------------------------------------- the page

  class Dashboard {
    var view: View
    var leads: seq<Lead>
    var dialQueue: seq<Lead>
    var queueIndex: int
    var sessionPaused: bool
    var stats: SessionStats
    var autoAdvancing: bool
    var toast: Option<string>
    /** `autoAdvanceRef.current`: the last auto-advance timer scheduled; never reset to null. */
    var autoAdvanceSlot: Option<nat>
    /** Advance timers scheduled and neither run nor cleared. */
    var pending: seq<Timer>
    var nextTimer: nat
    var patches: seq<LeadPatch>

    /** The index is a position of the queue, or 0 while the queue is empty; timer ids are fresh. */
    predicate Valid()
      reads this
    {
      && 0 <= queueIndex
      && (dialQueue == [] ==> queueIndex == 0)
      && (dialQueue != [] ==> queueIndex < |dialQueue|)
      && (forall i | 0 <= i < |pending| :: pending[i].id < nextTimer)
      && (autoAdvanceSlot.Some? ==> autoAdvanceSlot.value < nextTimer)
    }

    /** `dialQueue[queueIndex] || null`. */
    function CurrentLead(): (r: Option<Lead>)
      reads this
      requires Valid()
      ensures r.Some? <==> dialQueue != []
      ensures r.Some? ==> r.value in dialQueue
    {
      if queueIndex < |dialQueue| then Some(dialQueue[queueIndex]) else None
    }

    /** The first render: nothing loaded, counters at zero, no timers. */
    constructor ()
      ensures Valid()
      ensures view == Upload && leads == [] && dialQueue == [] && queueIndex == 0
      ensures !sessionPaused && !autoAdvancing && stats == InitialStats && toast == None
      ensures autoAdvanceSlot == None && pending == [] && patches == []
    {
      view := Upload;
      leads := [];
      dialQueue := [];
      queueIndex := 0;
      sessionPaused := false;
      stats := InitialStats;
      autoAdvancing := false;
      toast := None;
      autoAdvanceSlot := None;
      pending := [];
      nextTimer := 0;
      patches := [];
    }

    /** `handleFile` once the file is parsed: a non-empty result replaces the list and shows it. */
    method LoadLeads(parsed: seq<Lead>)
      requires Valid()
      modifies this`leads, this`view
      ensures Valid()
      ensures parsed != [] ==> leads == parsed && view == List
      ensures parsed == [] ==> leads == old(leads) && view == old(view)
    {
      if parsed != [] {
        leads := parsed;
        view := List;
      }
    }

    /** `updateLeadStatus`: both collections change at that id only, and a PATCH is sent. */
    method UpdateLeadStatus(id: int, status: string, vmCount: Option<int>)
      requires Valid()
      modifies this`leads, this`dialQueue, this`patches
      ensures Valid()
      ensures leads == UpdateById(old(leads), id, status, vmCount)
      ensures dialQueue == UpdateById(old(dialQueue), id, status, vmCount)
      ensures patches == old(patches) + [LeadPatch(id, status, vmCount)]
    {
      leads := UpdateById(leads, id, status, vmCount);
      dialQueue := UpdateById(dialQueue, id, status, vmCount);
      patches := patches + [LeadPatch(id, status, vmCount)];
    }

    /** `if (autoAdvanceRef.current) clearTimeout(autoAdvanceRef.current)`. */
    method ClearAutoAdvance()
      requires Valid()
      modifies this`pending
      ensures Valid()
      ensures pending == if autoAdvanceSlot.Some? then ClearTimer(old(pending), autoAdvanceSlot.value) else old(pending)
    {
      if autoAdvanceSlot.Some? {
        pending := ClearTimer(pending, autoAdvanceSlot.value);
      }
    }

    /** `advanceToNext` (and `handleSkip`): the next lead, or the summary after the last one. */
    method AdvanceToNext()
      requires Valid()
      modifies this`autoAdvancing, this`pending, this`queueIndex, this`view
      ensures Valid()
      ensures !autoAdvancing
      ensures pending == if old(autoAdvanceSlot).Some? then ClearTimer(old(pending), autoAdvanceSlot.value) else old(pending)
      ensures old(queueIndex) + 1 >= |dialQueue| ==> queueIndex == old(queueIndex) && view == Summary
      ensures old(queueIndex) + 1 < |dialQueue| ==> queueIndex == old(queueIndex) + 1 && view == Dialing
    {
      autoAdvancing := false;
      ClearAutoAdvance();
      var nextIdx := queueIndex + 1;
      if nextIdx >= |dialQueue| {
        view := Summary;
        return;
      }
      queueIndex := nextIdx;
      view := Dialing;
    }

    /** `startAutoAdvance`: a new 1500 ms timer takes the slot; the one it held is not cleared. */
    method StartAutoAdvance()
      requires Valid()
      modifies this`autoAdvancing, this`pending, this`autoAdvanceSlot, this`nextTimer
      ensures Valid()
      ensures autoAdvancing
      ensures pending == old(pending) + [Timer(old(nextTimer), AutoAdvance)]
      ensures autoAdvanceSlot == Some(old(nextTimer)) && nextTimer == old(nextTimer) + 1
    {
      autoAdvancing := true;
      pending := pending + [Timer(nextTimer, AutoAdvance)];
      autoAdvanceSlot := Some(nextTimer);
      nextTimer := nextTimer + 1;
    }

    /** The browser runs timer `id`: if it is still pending it is dropped and the session advances. */
    method FireTimer(id: nat)
      requires Valid()
      modifies this`autoAdvancing, this`pending, this`queueIndex, this`view
      ensures Valid()
      ensures (forall t | t in old(pending) :: t.id != id) ==>
        pending == old(pending) && queueIndex == old(queueIndex) && view == old(view)
        && autoAdvancing == old(autoAdvancing)
      ensures (exists t | t in old(pending) :: t.id == id) ==>
        && !autoAdvancing
        && (old(queueIndex) + 1 >= |dialQueue| ==> queueIndex == old(queueIndex) && view == Summary)
        && (old(queueIndex) + 1 < |dialQueue| ==> queueIndex == old(queueIndex) + 1 && view == Dialing)
        && pending == if autoAdvanceSlot.Some? then ClearTimer(ClearTimer(old(pending), id), autoAdvanceSlot.value)
                      else ClearTimer(old(pending), id)
      ensures forall t | t in pending :: t in old(pending) && t.id != id
    {
      if exists t | t in pending :: t.id == id {
        pending := ClearTimer(pending, id);
        AdvanceToNext();
      }
    }

    /** `startSession`: build the queue; if it is empty only a toast appears. */
    method StartSession(now: UtcDateTime, startLeadId: Option<int>)
      requires Valid() && 1 <= now.month <= 12
      modifies this`dialQueue, this`queueIndex, this`stats, this`sessionPaused, this`autoAdvancing,
        this`view, this`toast
      ensures Valid()
      ensures var queue := BuildQueue(old(leads), now);
        if queue == [] then
          toast == Some("No dialable leads") && dialQueue == old(dialQueue) && queueIndex == old(queueIndex)
          && stats == old(stats) && sessionPaused == old(sessionPaused) && autoAdvancing == old(autoAdvancing)
          && view == old(view)
        else
          dialQueue == queue && queueIndex == StartIndex(queue, startLeadId)
          && stats == InitialStats && !sessionPaused && !autoAdvancing && view == Dialing
          && toast == old(toast)
    {
      var queue := BuildQueue(leads, now);
      if queue == [] {
        toast := Some("No dialable leads");
        return;
      }
      dialQueue := queue;
      queueIndex := StartIndex(queue, startLeadId);
      stats := InitialStats;
      sessionPaused := false;
      autoAdvancing := false;
      view := Dialing;
    }

    /** `handlePrev`: back one lead, except at the first. */
    method Prev()
      requires Valid()
      modifies this`autoAdvancing, this`pending, this`queueIndex, this`view
      ensures Valid()
      ensures old(queueIndex) <= 0 ==>
        autoAdvancing == old(autoAdvancing) && pending == old(pending) && queueIndex == old(queueIndex)
        && view == old(view)
      ensures old(queueIndex) > 0 ==>
        !autoAdvancing && queueIndex == old(queueIndex) - 1 && view == Dialing
        && pending == if autoAdvanceSlot.Some? then ClearTimer(old(pending), autoAdvanceSlot.value) else old(pending)
    {
      if queueIndex <= 0 {
        return;
      }
      autoAdvancing := false;
      ClearAutoAdvance();
      queueIndex := queueIndex - 1;
      view := Dialing;
    }

    /** `handlePauseResume`: resuming only unpauses; pausing also stops the slot's auto-advance. */
    method PauseResume()
      requires Valid()
      modifies this`sessionPaused, this`autoAdvancing, this`pending
      ensures Valid()
      ensures sessionPaused == !old(sessionPaused)
      ensures old(sessionPaused) ==> autoAdvancing == old(autoAdvancing) && pending == old(pending)
      ensures !old(sessionPaused) ==>
        && !autoAdvancing
        && pending == if autoAdvanceSlot.Some? then ClearTimer(old(pending), autoAdvanceSlot.value) else old(pending)
    {
      if sessionPaused {
        sessionPaused := false;
      } else {
        sessionPaused := true;
        autoAdvancing := false;
        ClearAutoAdvance();
      }
    }

    /** `handleStop`: straight to the summary; queue, index and counters stay. */
    method Stop()
      requires Valid()
      modifies this`autoAdvancing, this`pending, this`view
      ensures Valid()
      ensures !autoAdvancing && view == Summary
      ensures pending == if autoAdvanceSlot.Some? then ClearTimer(old(pending), autoAdvanceSlot.value) else old(pending)
    {
      autoAdvancing := false;
      ClearAutoAdvance();
      view := Summary;
    }

    /** `handleDialVM`: one more voicemail on the lead, counted, then the auto-advance. */
    method DialVM()
      requires Valid()
      modifies this
      ensures Valid()
      ensures StatsLe(old(stats), stats)
      ensures old(CurrentLead()).None? ==> unchanged(this)
      ensures old(CurrentLead()).Some? ==>
        var l := old(CurrentLead()).value;
        var n := NextVmCount(l.vmCount);
        && leads == UpdateById(old(leads), l.id, VmStatus(n), Some(n))
        && dialQueue == UpdateById(old(dialQueue), l.id, VmStatus(n), Some(n))
        && patches == old(patches) + [LeadPatch(l.id, VmStatus(n), Some(n))]
        && stats == old(stats).(calls := old(stats).calls + 1, voicemails := old(stats).voicemails + 1)
        && toast == Some("Left VM — " + VmStatus(n))
        && autoAdvancing && pending == old(pending) + [Timer(old(nextTimer), AutoAdvance)]
        && autoAdvanceSlot == Some(old(nextTimer)) && nextTimer == old(nextTimer) + 1
        && queueIndex == old(queueIndex) && view == old(view) && sessionPaused == old(sessionPaused)
    {
      var current := CurrentLead();
      if current.None? {
        return;
      }
      var l := current.value;
      var cnt := NextVmCount(l.vmCount);
      var vmStatus := VmStatus(cnt);
      UpdateLeadStatus(l.id, vmStatus, Some(cnt));
      stats := stats.(calls := stats.calls + 1, voicemails := stats.voicemails + 1);
      toast := Some("Left VM — " + vmStatus);
      StartAutoAdvance();
    }

    /** `handleOpenScript`: the script screen, when there is a lead. */
    method OpenScript()
      requires Valid()
      modifies this`view
      ensures Valid()
      ensures view == if old(CurrentLead()).Some? then Script else old(view)
    {
      if CurrentLead().Some? {
        view := Script;
      }
    }

    /** `handleDialNoAnswer`: a call is counted and the auto-advance starts; the lead is untouched. */
    method DialNoAnswer()
      requires Valid()
      modifies this
      ensures Valid()
      ensures StatsLe(old(stats), stats)
      ensures old(CurrentLead()).None? ==> unchanged(this)
      ensures old(CurrentLead()).Some? ==>
        && leads == old(leads) && dialQueue == old(dialQueue) && patches == old(patches)
        && stats == old(stats).(calls := old(stats).calls + 1)
        && toast == Some("No answer — skipping")
        && autoAdvancing && pending == old(pending) + [Timer(old(nextTimer), AutoAdvance)]
        && autoAdvanceSlot == Some(old(nextTimer)) && nextTimer == old(nextTimer) + 1
        && queueIndex == old(queueIndex) && view == old(view) && sessionPaused == old(sessionPaused)
    {
      if CurrentLead().None? {
        return;
      }
      stats := stats.(calls := stats.calls + 1);
      toast := Some("No answer — skipping");
      StartAutoAdvance();
    }

    /** `handleDialBadNumber`: the lead becomes "Bad #" with its voicemail count kept. */
    method DialBadNumber()
      requires Valid()
      modifies this
      ensures Valid()
      ensures StatsLe(old(stats), stats)
      ensures old(CurrentLead()).None? ==> unchanged(this)
      ensures old(CurrentLead()).Some? ==>
        var l := old(CurrentLead()).value;
        && leads == UpdateById(old(leads), l.id, "Bad #", None)
        && dialQueue == UpdateById(old(dialQueue), l.id, "Bad #", None)
        && patches == old(patches) + [LeadPatch(l.id, "Bad #", None)]
        && stats == old(stats).(calls := old(stats).calls + 1, badNumbers := old(stats).badNumbers + 1)
        && toast == Some("Marked as Bad #")
        && autoAdvancing && pending == old(pending) + [Timer(old(nextTimer), AutoAdvance)]
        && autoAdvanceSlot == Some(old(nextTimer)) && nextTimer == old(nextTimer) + 1
        && queueIndex == old(queueIndex) && view == old(view) && sessionPaused == old(sessionPaused)
    {
      var current := CurrentLead();
      if current.None? {
        return;
      }
      UpdateLeadStatus(current.value.id, "Bad #", None);
      stats := stats.(calls := stats.calls + 1, badNumbers := stats.badNumbers + 1);
      toast := Some("Marked as Bad #");
      StartAutoAdvance();
    }

    /** `endCall`: the call is counted and the outcome screen follows. */
    method EndCall()
      requires Valid()
      modifies this`stats, this`view
      ensures Valid()
      ensures StatsLe(old(stats), stats)
      ensures stats == old(stats).(calls := old(stats).calls + 1) && view == PostCall
    {
      stats := stats.(calls := stats.calls + 1);
      view := PostCall;
    }

    /** `handleOutcome`: record the outcome, then an 800 ms advance that nothing can clear. */
    method Outcome(outcome: string)
      requires Valid()
      modifies this
      ensures Valid()
      ensures StatsLe(old(stats), stats)
      ensures old(CurrentLead()).None? ==> unchanged(this)
      ensures old(CurrentLead()).Some? ==>
        var l := old(CurrentLead()).value;
        var status := OutcomeStatus(outcome);
        && leads == UpdateById(old(leads), l.id, status, None)
        && dialQueue == UpdateById(old(dialQueue), l.id, status, None)
        && patches == old(patches) + [LeadPatch(l.id, status, None)]
        && stats == AddStats(old(stats), OutcomeDelta(outcome))
        && toast == Some("Marked as " + status)
        && pending == old(pending) + [Timer(old(nextTimer), OutcomeAdvance)] && nextTimer == old(nextTimer) + 1
        && autoAdvanceSlot == old(autoAdvanceSlot) && autoAdvancing == old(autoAdvancing)
        && queueIndex == old(queueIndex) && view == old(view) && sessionPaused == old(sessionPaused)
    {
      var current := CurrentLead();
      if current.None? {
        return;
      }
      var status := OutcomeStatus(outcome);
      UpdateLeadStatus(current.value.id, status, None);
      AddUnitGrows(stats, OutcomeDelta(outcome));
      stats := AddStats(stats, OutcomeDelta(outcome));
      toast := Some("Marked as " + status);
      pending := pending + [Timer(nextTimer, OutcomeAdvance)];
      nextTimer := nextTimer + 1;
    }
  }

  /**
   * Stopping after an outcome does not cancel its 800 ms advance: when that timer
   * runs, the summary gives way to the next lead.
   */
  method StopKeepsOutcomeAdvance(d: Dashboard, outcome: string)
    requires d.Valid() && d.queueIndex + 1 < |d.dialQueue|
    modifies d
    ensures d.view == Dialing && d.queueIndex == old(d.queueIndex) + 1
  {
    var id := d.nextTimer;
    d.Outcome(outcome);
    d.Stop();
    assert Timer(id, OutcomeAdvance) in d.pending;
    d.FireTimer(id);
  }

  /**
   * Skipping on the post-call screen before the 800 ms advance runs moves on twice:
   * one lead is passed over without being shown.
   */
  method SkipDuringOutcomeDelay(d: Dashboard, outcome: string)
    requires d.Valid() && d.queueIndex + 2 < |d.dialQueue|
    modifies d
    ensures d.view == Dialing && d.queueIndex == old(d.queueIndex) + 2
  {
    var id := d.nextTimer;
    d.Outcome(outcome);
    d.AdvanceToNext();
    assert Timer(id, OutcomeAdvance) in d.pending;
    d.FireTimer(id);
  }

  /**
   * A second auto-advance takes the slot without clearing the first, so pausing
   * clears only the second and the first still advances the paused session.
   */
  method OverwrittenSlotStillAdvances(d: Dashboard)
    requires d.Valid() && !d.sessionPaused && d.queueIndex + 1 < |d.dialQueue|
    modifies d
    ensures d.sessionPaused && d.view == Dialing && d.queueIndex == old(d.queueIndex) + 1
  {
    var first := PauseAfterTwoAdvances(d);
    d.FireTimer(first);
  }

  /** Two auto-advances and a pause leave the first advance's timer pending. */
  method PauseAfterTwoAdvances(d: Dashboard) returns (first: nat)
    requires d.Valid() && !d.sessionPaused
    modifies d
    ensures d.Valid() && d.sessionPaused
    ensures d.dialQueue == old(d.dialQueue) && d.queueIndex == old(d.queueIndex)
    ensures Timer(first, AutoAdvance) in d.pending
  {
    first := d.nextTimer;
    d.StartAutoAdvance();
    d.StartAutoAdvance();
    d.PauseResume();
    assert Timer(first, AutoAdvance) in d.pending;
  }
}
