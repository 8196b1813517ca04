/**
 * The dialing screen's auto-dial countdown (app/dashboard/components/DialingView.tsx).
 *
 * When a lead is shown and the session runs, a three-second countdown starts;
 * each tick of the one-second interval lowers it, and at zero the phone's dialer
 * is opened for that lead once. `lastDialed` remembers the lead last dialled or
 * cancelled, so it is not dialled again while this screen stays mounted; a fresh
 * screen (after the script or post-call screen) starts with it empty.
 *
 * The interval is explicit: `running` says whether one is scheduled and `Tick`
 * is one run of its callback. Opened dialers are recorded in `dials` as the
 * `tel:` links `openDialer` follows.
 */
module Dialing {
  import opened Js
  import opened Types
  import opened Phone

  /** COUNTDOWN_SECONDS. */
  const CountdownSeconds: int := 3

  /** The status line: PAUSED, then the countdown, then ON CALL, then DIALING. */
  function StatusLabel(paused: bool, countdown: Option<int>, dialed: bool): string
  {
    if paused then "PAUSED"
    else if countdown.Some? then "DIALING IN " + IntToString(countdown.value) + "..."
    else if dialed then "ON CALL"
    else "DIALING"
  }

  /** Each label is shown exactly in its own case, in the order of precedence. */
  lemma StatusLabelPrecedence(paused: bool, countdown: Option<int>, dialed: bool)
    ensures StatusLabel(paused, countdown, dialed) == "PAUSED" <==> paused
    ensures StartsWith(StatusLabel(paused, countdown, dialed), "DIALING IN ") <==> !paused && countdown.Some?
    ensures StatusLabel(paused, countdown, dialed) == "ON CALL" <==> !paused && countdown.None? && dialed
    ensures StatusLabel(paused, countdown, dialed) == "DIALING" <==> !paused && countdown.None? && !dialed
  {
    var r := StatusLabel(paused, countdown, dialed);
    if !paused && countdown.Some? {
      assert r[..11] == "DIALING IN ";
      assert |r| > 11;
    }
  }

  /** The green call button: no auto-advance and no countdown. */
  predicate CallButtonShown(autoAdvancing: bool, countdown: Option<int>)
  {
    !autoAdvancing && countdown.None?
  }

  /** Left VM, Script, No Answer, Bad # and Re-dial: dialled, not advancing, not paused. */
  predicate OutcomeButtonsShown(dialed: bool, autoAdvancing: bool, paused: bool)
  {
    dialed && !autoAdvancing && !paused
  }

  /** Prev is disabled on the first lead. */
  predicate PrevDisabled(queueIndex: int)
  {
    queueIndex == 0
  }

  /** Whether the dial buttons can be pressed during a countdown, or while paused. */
  lemma ButtonsExclusive(dialed: bool, autoAdvancing: bool, paused: bool, countdown: Option<int>)
    ensures countdown.Some? ==> !CallButtonShown(autoAdvancing, countdown)
    ensures paused || autoAdvancing ==> !OutcomeButtonsShown(dialed, autoAdvancing, paused)
    ensures autoAdvancing ==> !CallButtonShown(autoAdvancing, countdown)
  {
  }

  class DialingView {
    /** The `currentLead` and `sessionPaused` props of the last render. */
    var lead: Option<Lead>
    var paused: bool
    var dialed: bool
    /** The countdown shown, None for `null`. */
    var countdown: Option<int>
    /** An interval is scheduled (`countdownRef.current` is set). */
    var running: bool
    /** The interval callback's `remaining`, and the lead it closed over. */
    var remaining: int
    var armedLead: Option<Lead>
    var lastDialed: Option<int>
    var dials: seq<string>

    /**
     * A countdown shows exactly while its interval runs, it shows the interval's
     * count, and the interval was armed for a lead not yet dialled.
     */
    predicate Valid()
      reads this
    {
      && (running <==> countdown.Some?)
      && (running ==> countdown == Some(remaining) && 1 <= remaining <= CountdownSeconds)
      && (running ==> armedLead.Some? && lastDialed != Some(armedLead.value.id))
    }

    /** The countdown would start: running, a lead, and not the lead dialled last. */
    predicate WouldArm()
      reads this
    {
      !paused && lead.Some? && lastDialed != Some(lead.value.id)
    }

    /** Mounting: no lead dialled yet, then the effect runs once. */
    constructor (lead: Option<Lead>, paused: bool)
      ensures Valid()
      ensures this.lead == lead && this.paused == paused && lastDialed == None && dials == []
      ensures running <==> !paused && lead.Some?
      ensures running ==> countdown == Some(CountdownSeconds) && armedLead == lead && !dialed
      ensures !running ==> !dialed
    {
      this.lead := lead;
      this.paused := paused;
      dialed := false;
      countdown := None;
      running := false;
      remaining := 0;
      armedLead := None;
      lastDialed := None;
      dials := [];
      new;
      RunEffect();
    }

    /** `clearCountdown`: the interval is cleared and the countdown hidden. */
    method ClearCountdown()
      modifies this`running, this`countdown
      ensures !running && countdown == None
    {
      running := false;
      countdown := None;
    }

    /** The countdown effect's body. */
    method RunEffect()
      requires !running && countdown.None?
      modifies this`dialed, this`countdown, this`running, this`remaining, this`armedLead
      ensures Valid()
      ensures old(WouldArm()) ==>
        running && countdown == Some(CountdownSeconds) && !dialed && armedLead == lead
      ensures !old(WouldArm()) ==>
        !running && countdown == None && dialed == old(dialed) && armedLead == old(armedLead)
    {
      if paused || lead.None? {
        return;
      }
      if lastDialed == Some(lead.value.id) {
        return;
      }
      dialed := false;
      countdown := Some(CountdownSeconds);
      remaining := CountdownSeconds;
      armedLead := lead;
      running := true;
    }

    /**
     * A render with new props: when the lead or the pause flag changed, the previous
     * effect's cleanup clears any countdown (without touching `lastDialed`), and the
     * effect runs again.
     */
    method Render(newLead: Option<Lead>, newPaused: bool)
      requires Valid()
      modifies this`lead, this`paused, this`dialed, this`countdown, this`running, this`remaining, this`armedLead
      ensures Valid()
      ensures lead == newLead && paused == newPaused
      ensures newLead == old(lead) && newPaused == old(paused) ==>
        running == old(running) && countdown == old(countdown) && dialed == old(dialed)
      ensures (newLead != old(lead) || newPaused != old(paused)) && WouldArm() ==>
        running && countdown == Some(CountdownSeconds) && !dialed && armedLead == newLead
      ensures (newLead != old(lead) || newPaused != old(paused)) && !WouldArm() ==>
        !running && countdown == None && dialed == old(dialed)
    {
      if newLead == lead && newPaused == paused {
        return;
      }
      ClearCountdown();
      lead := newLead;
      paused := newPaused;
      RunEffect();
    }

    /** One run of the interval callback: count down, and at zero dial the armed lead. */
    method Tick()
      requires Valid()
      modifies this`countdown, this`running, this`remaining, this`lastDialed, this`dials, this`dialed
      ensures Valid()
      ensures !old(running) ==> unchanged(this)
      ensures old(running) && old(remaining) > 1 ==>
        running && remaining == old(remaining) - 1 && countdown == Some(remaining)
        && dials == old(dials) && lastDialed == old(lastDialed) && dialed == old(dialed)
      ensures old(running) && old(remaining) == 1 ==>
        !running && countdown == None && dialed
        && lastDialed == Some(old(armedLead).value.id)
        && dials == old(dials) + [TelHref(old(armedLead).value.phone)]
    {
      if !running {
        return;
      }
      remaining := remaining - 1;
      if remaining <= 0 {
        ClearCountdown();
        var l := armedLead.value;
        lastDialed := Some(l.id);
        dials := dials + [TelHref(l.phone)];
        dialed := true;
      } else {
        countdown := Some(remaining);
      }
    }

    /** `cancelCountdown`: no countdown, the shown lead counts as dialled, and not on a call. */
    method CancelCountdown()
      requires Valid()
      modifies this`countdown, this`running, this`lastDialed, this`dialed
      ensures Valid()
      ensures !running && countdown == None && !dialed
      ensures lastDialed == if lead.Some? then Some(lead.value.id) else old(lastDialed)
    {
      ClearCountdown();
      if lead.Some? {
        lastDialed := Some(lead.value.id);
      }
      dialed := false;
    }

    /** The call button: open the dialer for the shown lead and remember it. */
    method ManualDial(autoAdvancing: bool)
      requires Valid() && lead.Some? && CallButtonShown(autoAdvancing, countdown)
      modifies this`lastDialed, this`dials, this`dialed
      ensures Valid()
      ensures dials == old(dials) + [TelHref(lead.value.phone)]
      ensures lastDialed == Some(lead.value.id) && dialed
    {
      dials := dials + [TelHref(lead.value.phone)];
      lastDialed := Some(lead.value.id);
      dialed := true;
    }

    /** Re-dial: open the dialer again; nothing else changes. */
    method Redial()
      requires Valid()
      modifies this`dials
      ensures Valid()
      ensures dials == old(dials) + if lead.Some? then [TelHref(lead.value.phone)] else []
    {
      if lead.Some? {
        dials := dials + [TelHref(lead.value.phone)];
      }
    }

    /** No Answer: leave the call state before the page records the outcome. */
    method NoAnswer()
      requires Valid()
      modifies this`dialed
      ensures Valid() && !dialed
    {
      dialed := false;
    }
  }

  /**
   * Three ticks after a lead's countdown starts, its dialer has been opened exactly
   * once; a fourth tick does nothing more.
   */
  method CountdownDialsOnce(lead: Lead) returns (v: DialingView)
    ensures v.dials == [TelHref(lead.phone)] && v.lastDialed == Some(lead.id) && v.dialed
    ensures !v.running && v.countdown == None
  {
    v := new DialingView(Some(lead), false);
    v.Tick();
    v.Tick();
    v.Tick();
    v.Tick();
  }

  /** The lead dialled last does not start a countdown again while the screen stays mounted. */
  method NoSecondAutoDial(lead: Lead, other: Lead) returns (v: DialingView)
    requires other != lead
    ensures v.dials == [TelHref(lead.phone)] && !v.running
  {
    v := new DialingView(Some(lead), false);
    v.Tick();
    v.Tick();
    v.Tick();
    v.Render(Some(other), true);
    v.Render(Some(lead), false);
  }

  /** Pausing mid-countdown clears it without dialling, and resuming starts it over at 3. */
  method PauseRestartsCountdown(lead: Lead) returns (v: DialingView)
    ensures v.dials == [] && v.running && v.countdown == Some(CountdownSeconds)
  {
    v := new DialingView(Some(lead), false);
    v.Tick();
    v.Render(Some(lead), true);
    v.Render(Some(lead), false);
  }

  /** A newly mounted screen has forgotten the last dial: the same lead counts down again. */
  method RemountDialsAgain(lead: Lead) returns (v: DialingView, w: DialingView)
    ensures v.dials == [TelHref(lead.phone)]
    ensures w.running && w.countdown == Some(CountdownSeconds) && w.lastDialed == None
  {
    v := new DialingView(Some(lead), false);
    v.Tick();
    v.Tick();
    v.Tick();
    w := new DialingView(Some(lead), false);
  }
}
