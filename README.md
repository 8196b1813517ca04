# SkipDial dialing engine in Dafny

SkipDial is a web power dialer for insurance agents. An agent uploads a
spreadsheet of leads. The dashboard works out the local time of each lead
from its US state and scores the calling window. It then builds a dial queue
and steps through it. A three-second countdown opens the phone's dialer for
each lead, and the agent records the outcome (voicemail, no answer, bad
number, appointment, sale...). Around the dashboard are:

- a call-script editor;
- server routes that store leads and scripts per signed-in user;
- a Stripe webhook that keeps the subscription state;
- serverless functions that place calls through Telnyx Call Control and log
  the call events Telnyx posts back.

This project models that core and proves what it promises. Each module
follows one source file or component:

| module | file | models |
|---|---|---|
| `Js` | js.dfy | the JavaScript values and built-ins the code relies on (truthiness, `String()`, `Number()`, `parseInt`, `trim`, `split`, `includes`, `slice`) |
| `Types`, `Constants` | types.dfy, constants.dfy | the lead, statistics and view records, and the fixed tables |
| `Calendar`, `CallWindow` | calendar.dfy, callwindow.dfy | the US daylight-saving rule (section 260a of title 15 of the United States Code: second Sunday of March to first Sunday of November), a state's local time and its call-window score |
| `Phone`, `Format` | phone.dfy, format.dfy | phone cleaning and formatting, the `tel:` link (RFC 3966), age from a birth date, initials, the avatar colour, durations |
| `Csv` | csv.dfy | the spreadsheet parser with its status synonyms, the demo leads, and the defaults applied to server records |
| `Queue` | queue.dfy | the dial queue's filter and three-key stable sort, and the lead list's search and sort |
| `Session` | session.dfy | the dashboard page as a class: the session fields, the timer slot and every handler |
| `Dialing` | dialing.dfy | the dialing screen's auto-dial countdown as a class stepped by explicit ticks |
| `Script` | script.dfy | placeholder filling and the open-section toggle of the script view, and the section-list edits of the script editor |
| `LeadsApi`, `ScriptsApi`, `StripeWebhook` | leads_api.dfy, scripts_api.dfy, stripe_webhook.dfy | the server routes as decisions over the request |
| `Telnyx`, `CallApi`, `OutboundWebhook`, `TelnyxEvents` | telnyx.dfy, call_api.dfy, outbound_webhook.dfy, telnyx_events.dfy | the Telnyx functions: the call-request ladder with its E.164 `+1` normaliser (ITU-T E.164, country code 1), the outbound-action dispatcher, and the capped in-memory event log with its `since` poll |

Conventions used throughout:

- "Now" is always a parameter: a UTC date and time for the call window, and a
  local date for ages. The fractional local hour becomes whole minutes of the
  day.
- The user returned by Clerk's `auth()` is an `Option<string>`.
- A database call becomes a flag saying whether it failed. A write becomes the
  record that would be written.
- Timers are explicit. A method schedules a timer into a `pending` list, and a
  later call runs it.
- Outbound HTTP calls become returned values. Telnyx requests are `Telnyx.Call`
  values; PATCH requests are `Session.LeadPatch` values.
- An exception thrown inside a route becomes `None` (or status 500 where the
  route or the platform answers so).

## Model

| member | source | states |
|---|---|---|
| Calendar.WeekDay | app/dashboard/lib/utils.ts:11-16 | `getUTCDay()` of a date lies in 0..6 (1970-01-01 is a Thursday) |
| Calendar.WeekDayShift | app/dashboard/lib/utils.ts:11-16 | the weekday of day d is the weekday of the 1st moved on by d-1 |
| Calendar.SecondSundayOfMarchIsSunday | app/dashboard/lib/utils.ts:11-13 | `8 + ((7 - dow(Mar 1)) % 7)` lies in 8..14, is a Sunday, and so is the day a week earlier: it is the second Sunday |
| Calendar.FirstSundayOfNovemberIsSunday | app/dashboard/lib/utils.ts:15-17 | `1 + ((7 - dow(Nov 1)) % 7)` lies in 1..7, is a Sunday, and no earlier November day is: it is the first Sunday |
| Calendar.DaysBeforeMonthGrows | app/dashboard/lib/utils.ts:13-17 | a later month starts at least a whole month after an earlier one |
| Calendar.HourOrder | app/dashboard/lib/utils.ts:13-20 | within a year, comparing millisecond timestamps orders (month, day, hour) lexicographically, in both directions |
| Calendar.IsDstWindow | app/dashboard/lib/utils.ts:7-21 | `isDST` holds exactly from 07:00 UTC on the second Sunday of March up to, but not including, 06:00 UTC on the first Sunday of November |
| Calendar.Dst2024 | app/dashboard/lib/utils.ts:12-16 | for 2024 the rule gives 10 March and 3 November |
| CallWindow.LocalMinutes | app/dashboard/lib/utils.ts:23-34 | a local time, when there is one, lies on the 24-hour dial (0..1439 minutes) |
| CallWindow.GetLocalHour | app/dashboard/lib/utils.ts:23-34 | the imperative `getLocalHour` (upper-case the state, look up the offset, add an hour in DST outside AZ/HI, wrap once) returns `LocalMinutes`, and null exactly for a state not on the table |
| CallWindow.WrapDay | app/dashboard/lib/utils.ts:31-32 | the two wrap-arounds bring any shifted time back onto the dial; the result is the time modulo one day |
| CallWindow.Hour12 | app/dashboard/lib/utils.ts:42 | the display hour lies in 1..12 and agrees with the 24-hour hour modulo 12 |
| CallWindow.ClockTextRoundTrip | app/dashboard/lib/utils.ts:39-43 | the `h:mm AM/PM` text, read back by an independent parser, gives the local minute it was made from (PM iff 12:00 or later, minutes padded to two digits) |
| CallWindow.ClockPieces | app/dashboard/lib/utils.ts:43 | the time text splits back into hour digits, minute digits and suffix |
| CallWindow.ClockArithmetic | app/dashboard/lib/utils.ts:41-42 | the 12-hour hour, the AM/PM half and the minutes recombine into the minute of the day |
| CallWindow.ScoreIsWindowScore | app/dashboard/lib/utils.ts:36-52 | the score used for queueing is the `score` field of `getCallWindow` |
| CallWindow.ScoreFacts | app/dashboard/lib/utils.ts:36-52 | the score is one of 0, 3, 5, 6, 7, 8, 9, 10; it is positive iff the state is unknown or the local time is 08:00 to 20:59; it is 5 iff the state is unknown |
| CallWindow.WindowText | app/dashboard/lib/utils.ts:38-43 | an unknown state gives the neutral window {"Unknown", 5, "--:--"}; a known one shows text that reads back as its local time, PM iff 12:00 or later |
| CallWindow.LocalMinutesCaseInsensitive | app/dashboard/lib/utils.ts:24 | "tx" and "TX" give the same local time |
| CallWindow.NoDstStatesFixed | app/dashboard/lib/utils.ts:29 | Arizona and Hawaii keep their table offset all year |
| Constants.InitialStatsZero | app/dashboard/lib/constants.ts:3-6 | the seven counters start at zero: they total 0, and no other counters sit both at or below and at or above them |
| Constants.OffsetRange | app/dashboard/lib/constants.ts:8-19 | every offset lies in -10..-5 |
| Constants.OffsetDomain | app/dashboard/lib/constants.ts:8-19 | the table's keys are exactly the listed state codes |
| Constants.StateCodesDistinct | app/dashboard/lib/constants.ts:8-19 | the table lists 51 codes, the 50 states and DC, with no code twice |
| Constants.NoDstOnTable | app/dashboard/lib/constants.ts:21 | AZ and HI are both on the offset table |
| Constants.StyleTables | app/dashboard/lib/constants.ts:28-42 | 11 styled statuses and 5 skipped ones; the skipped ones are all styled; NEW LEAD is styled and not skipped |
| Constants.DemoStatusesKnown | app/dashboard/lib/constants.ts:44-57 | the 12 demo leads all have a styled status |
| Constants.DemoStatesOnTable | app/dashboard/lib/constants.ts:44-57 | every demo state is on the offset table |
| Constants.DemoPhonesTenDigits | app/dashboard/lib/constants.ts:44-57 | every demo phone is ten digits |
| Phone.CleanPhone | app/dashboard/lib/utils.ts:63-66 | the cleaned number is all digits |
| Phone.CleanPhoneDropsCountryCode | app/dashboard/lib/utils.ts:63-66 | the result is the input's digits, with the first digit dropped iff it is '1' and there are exactly 11 digits; it is never an 11-digit number starting with 1 |
| Phone.CleanPhoneIdempotent | app/dashboard/lib/utils.ts:63-66 | cleaning a cleaned number changes nothing |
| Phone.FormattedDigits | app/dashboard/lib/utils.ts:59 | the digits of `(AAA) BBB-CCCC` are AAABBBCCCC |
| Phone.FormatPhoneKeepsNumber | app/dashboard/lib/utils.ts:56-61 | the result has the `(AAA) BBB-CCCC` shape iff the cleaned number has 10 digits; it cleans to the same number; any other input comes back unchanged |
| Phone.TelHref | app/dashboard/lib/utils.ts:98-102 | the dialer link is `tel:+1` followed by the phone as given |
| Format.BirthParts | app/dashboard/lib/utils.ts:69-73 | a birth date that gets past the checks has three positive parts |
| Format.ParseAge | app/dashboard/lib/utils.ts:68-80 | the imperative `parseAge` (split, check, year difference, decrement before the birthday) returns `Age` |
| Format.AgeIsCompletedYears | app/dashboard/lib/utils.ts:74-79 | the age is the number of birthdays completed by today: the age-th birthday is on or before today and the next one is after it |
| Format.SplitBirthDate | app/dashboard/lib/utils.ts:70 | `m/d/y` splits into its three parts |
| Format.BirthPartsOfDigits | app/dashboard/lib/utils.ts:70-73 | a numeric `MM/DD/YYYY` date has those three numbers as its parts |
| Format.AgeExample | app/dashboard/lib/utils.ts:68-80 | a lead born 03/15/1952 is 74 on 15 October 2026 and was 73 on 14 March 2026 |
| Format.AgeRejects | app/dashboard/lib/utils.ts:69-73 | a date with two parts, a zero part, or no text at all gives no age |
| Format.FirstLetters | app/dashboard/lib/utils.ts:83 | there is at most one initial per word |
| Format.GetInitials | app/dashboard/lib/utils.ts:82-84 | the initials are at most two characters |
| Format.InitialsOfTwoWords | app/dashboard/lib/utils.ts:82-84 | "first last" gives both first letters upper-cased; one word gives one |
| Format.InitialsSkipEmptyWords | app/dashboard/lib/utils.ts:83 | extra spaces add no initials |
| Format.InitialsOfFirstTwoWords | app/dashboard/lib/utils.ts:82-84 | for any name made of space-free words joined by single spaces, empty words included, the initials are the upper-cased first letters of the first two non-empty words |
| Format.InitialsOfOneWord | app/dashboard/lib/utils.ts:82-84 | for any such name with at most one non-empty word, the initials are that word's upper-cased first letter, or "" when there is none |
| Format.InitialsOfLetters | app/dashboard/lib/utils.ts:83-84 | when the word initials start with x and y, the result is x and y upper-cased, whatever follows |
| Format.FirstLettersConcat | app/dashboard/lib/utils.ts:83 | the word initials of two word lists in a row are the initials of each, in order |
| Format.FirstLettersOfEmptyWords | app/dashboard/lib/utils.ts:83 | empty words give no initials |
| Format.LettersOfTwo | app/dashboard/lib/utils.ts:83 | when only words i and j are non-empty up to j, the initials start with their first letters |
| Format.ToInt32 | app/dashboard/lib/utils.ts:88 | the 32-bit wrap of the shift lies in the signed range and is congruent to its input modulo 2^32 |
| Format.AvatarColor | app/dashboard/lib/utils.ts:86-90 | the hash loop yields an index into the eight-colour table, equal to \|hash\| mod 8 of the whole name, and the colour at that index |
| Format.FormatDurationRoundTrip | app/dashboard/lib/utils.ts:92-96 | `m:ss` splits into two digit runs, the second two digits long, and 60·m + ss gives back the seconds |
| Csv.StatusMapInStyles | app/dashboard/lib/utils.ts:106-116 | every synonym maps to a styled status |
| Csv.StatusOfKnown | app/dashboard/lib/utils.ts:134 | the parsed status is always a styled status |
| Csv.SplitLines | app/dashboard/lib/utils.ts:119 | splitting on `\r?\n` gives at least one line |
| Csv.NonBlank | app/dashboard/lib/utils.ts:119 | the kept lines are all non-blank and no more than the input |
| Csv.RemoveQuotes | app/dashboard/lib/utils.ts:122 | header names contain no quote characters |
| Csv.StripOuterQuotes | app/dashboard/lib/utils.ts:128 | removing the outer quotes never lengthens a cell |
| Csv.Headers | app/dashboard/lib/utils.ts:122 | there is one header name per field of the header line |
| Csv.Cells | app/dashboard/lib/utils.ts:128 | there is one cell per field of a data line |
| Csv.FindColumn | app/dashboard/lib/utils.ts:123 | `findIndex` gives -1 iff no header contains the word, else the first header that does |
| Csv.LeadOfLineOk | app/dashboard/lib/utils.ts:129-140 | a kept row has a non-empty name, a cleaned phone of at least 7 digits, an upper-cased state, a styled status, the vmCount its status implies, and the id it was given |
| Csv.Outcomes | app/dashboard/lib/utils.ts:127-141 | there is one outcome per line |
| Csv.OutcomesAt | app/dashboard/lib/utils.ts:127-141 | line j yields the row built from line j with id j |
| Csv.ParseLine | app/dashboard/lib/utils.ts:128-140 | the imperative loop body (trim, lookups, the successive `vmCount` ifs) yields `LeadOfLine` |
| Csv.ParseLineAt | app/dashboard/lib/utils.ts:128-140 | one pass of the loop body on line i yields that line's outcome |
| Csv.OutcomesYield | app/dashboard/lib/utils.ts:127-141 | every line's outcome is what the loop body yields on it |
| Csv.ParseLines | app/dashboard/lib/utils.ts:126-142 | the loop pushes exactly the outcomes of lines 1.., in order |
| Csv.ParseCsv | app/dashboard/lib/utils.ts:118-143 | the imperative `parseCSV` returns `Csv(text)`: nothing for fewer than two lines or without name and phone columns, else the collected rows |
| Csv.OutcomesOfLinesOk | app/dashboard/lib/utils.ts:127-141 | every yielded lead is well-formed and carries its line number |
| Csv.CollectFacts | app/dashboard/lib/utils.ts:127-141 | collected leads are well-formed, with ids in 1..k-1 strictly increasing |
| Csv.CollectIds | app/dashboard/lib/utils.ts:127-141 | a line's number is a collected id iff that line yields a lead |
| Csv.CsvEmptyCases | app/dashboard/lib/utils.ts:119-125 | fewer than two non-blank lines, or no header naming "name" or "phone", gives no leads |
| Csv.CsvFacts | app/dashboard/lib/utils.ts:118-143 | the parsed leads are well-formed, with unique, strictly increasing ids of at least 1 |
| Csv.KeptLines | app/dashboard/lib/utils.ts:127-141 | the data lines that yield a lead are exactly those whose number is a collected id |
| Csv.CsvKeptLines | app/dashboard/lib/utils.ts:118-143 | with both columns present, a data line's number is a lead id iff that line yields a lead (a non-empty name and a cleaned phone of at least 7 digits) |
| Csv.ToUpperIdempotent | app/dashboard/lib/utils.ts:133 | a parsed state is already upper case |
| Csv.DemoVmCountAgrees | app/dashboard/lib/utils.ts:155 | on every styled status, the demo voicemail rule gives the parser's count |
| Csv.NoVmWithoutV | app/dashboard/lib/utils.ts:155 | text without a 'V' does not contain "VM" |
| Csv.BuildDemoLeads | app/dashboard/lib/utils.ts:145-157 | the demo leads are numbered from 1 and keep their raw status |
| Csv.DemoLeadsOk | app/dashboard/lib/utils.ts:145-157 | demo leads look like parsed ones: styled status, matching voicemail count, ten-digit phone kept as is |
| Csv.MapServerLeads | app/dashboard/lib/utils.ts:161-173 | there is one lead per record |
| Csv.MapServerLeadsDefaults | app/dashboard/lib/utils.ts:161-173 | a falsy id becomes position+1; a falsy status "NEW LEAD"; a falsy vm_count 0; a falsy name ""; only a null or undefined age becomes null, so 0 is kept |
| Csv.MapServerLeadsEmpty | app/dashboard/lib/utils.ts:161-173 | an empty record becomes the all-default lead |
| Queue.Filter | app/dashboard/page.tsx:281 | a filter never lengthens its input |
| Queue.FilterMembers | app/dashboard/page.tsx:281 | the filter keeps exactly the elements that pass the test |
| Queue.WithKeyConcat | app/dashboard/page.tsx:282-290 | the elements of one key distribute over a concatenation |
| Queue.InsertMultiset | app/dashboard/page.tsx:282-290 | inserting adds exactly one element |
| Queue.InsertSorted | app/dashboard/page.tsx:282-290 | inserting into a sorted list keeps it sorted |
| Queue.InsertWithKey | app/dashboard/page.tsx:282-290 | inserting appends the element after all equal-key ones (stability) |
| Queue.SortByFacts | app/dashboard/page.tsx:282-290 | the sort's output is sorted, is a permutation of its input, and keeps each key's elements in input order (a stable sort) |
| Queue.QueueFacts | app/dashboard/page.tsx:280-290 | the queue is a permutation of the dialable leads (score > 0, status not skipped); it holds a lead iff that lead is dialable; NEW LEAD comes first, then higher score, then higher age (null as 0); full ties keep input order |
| Queue.DialableCountIsQueueLength | app/dashboard/components/ListView.tsx:54-57 | the list's dialable count equals the length of the queue a session would build |
| Queue.StartIndex | app/dashboard/page.tsx:295-299 | for a non-empty queue the start index is a position of the queue |
| Queue.StartIndexFacts | app/dashboard/page.tsx:295-299 | the start is the first position holding startLeadId when there is one, else 0 |
| Queue.FindId | app/dashboard/page.tsx:297 | `findIndex` lies in -1..len-1 |
| Queue.FindIdFacts | app/dashboard/page.tsx:297 | -1 iff no lead has the id, else the first position that has it |
| Queue.FilteredLeadsFacts | app/dashboard/components/ListView.tsx:31-52 | a blank search keeps all leads; otherwise a lead is kept iff its lower-cased name, state or status, or its raw phone, contains the lower-cased untrimmed query; the output is a permutation of the kept leads, no longer than the input, ordered non-NEW LEAD first, then score, then age |
| Queue.EmptyQueryMatchesAll | app/dashboard/components/ListView.tsx:33-41 | every lead contains the empty query |
| Queue.NewLeadOrders | app/dashboard/components/ListView.tsx:44-46 | a NEW LEAD sorts before any other lead in the queue and after it in the list |
| Queue.EmptyListText | app/dashboard/components/ListView.tsx:159-167 | the empty-list message says "No leads loaded" iff nothing was typed |
| Session.UpdateById | app/dashboard/page.tsx:163-168 | the update keeps the length |
| Session.UpdateByIdFacts | app/dashboard/page.tsx:161-168 | ids and order are kept; leads with another id are unchanged; the lead with the id gets the status, and the vmCount only when one is given |
| Session.UpdateByIdLaws | app/dashboard/page.tsx:161-168 | updating twice is updating once, and updates of different leads commute |
| Session.NextVmCount | app/dashboard/page.tsx:345 | one more voicemail gives 1..3 |
| Session.VmStatusRoundTrip | app/dashboard/page.tsx:345-347 | the status written is "1x VM", "2x VM" or "3x VM", and the parser's count reads it back as the new vmCount |
| Session.AddStats | app/dashboard/page.tsx:409-413 | the total of a sum of counters is the sum of the totals |
| Session.AddUnitGrows | app/dashboard/page.tsx:409-413 | adding 0/1 deltas never lowers a counter |
| Session.OutcomeDelta | app/dashboard/page.tsx:384-407 | an outcome adds at most one to one counter, never to calls or voicemails |
| Session.OutcomeTable | app/dashboard/page.tsx:381-413 | followup, appointment, sold, not_interested and bad_number set Follow Up, Scheduled Appt, SOLD, Not Interested and Bad # and add exactly one to callbacks, appointments, sold, notInterested and badNumbers respectively; an unknown key gives Follow Up and no counter change; the statuses taken out of the queue are exactly those of sold, not_interested and bad_number |
| Session.ClearTimer | app/dashboard/page.tsx:186 | `clearTimeout` removes exactly the timer with that id |
| Session.Dashboard.CurrentLead | app/dashboard/page.tsx:45 | there is a current lead iff the queue is non-empty, and it is in the queue |
| Session.Dashboard.constructor | app/dashboard/page.tsx:19-40 | the first render: upload view, no leads, index 0, counters at zero, not paused, no timers |
| Session.Dashboard.LoadLeads | app/dashboard/page.tsx:219-223 | a non-empty parse replaces the leads and shows the list; an empty one changes nothing |
| Session.Dashboard.UpdateLeadStatus | app/dashboard/page.tsx:161-180 | both collections are updated by id and the PATCH request is recorded |
| Session.Dashboard.ClearAutoAdvance | app/dashboard/page.tsx:186 | only the timer in the slot is cleared |
| Session.Dashboard.AdvanceToNext | app/dashboard/page.tsx:184-196 | auto-advance is cleared along with the slot's timer; past the last lead the summary shows with the index kept, otherwise index+1 and the dialing view |
| Session.Dashboard.StartAutoAdvance | app/dashboard/page.tsx:198-201 | a new 1500 ms timer takes the slot; the timer it held stays pending |
| Session.Dashboard.FireTimer | app/dashboard/page.tsx:200 | a pending timer runs once and advances; a cleared or spent one does nothing; firing drops exactly the fired timer and the slot's timer, and every other pending timer survives |
| Session.Dashboard.StartSession | app/dashboard/page.tsx:278-310 | an empty queue only shows the "No dialable leads" toast; otherwise the queue is `BuildQueue`, the index the start lead's position, counters reset, not paused, not advancing, dialing view |
| Session.Dashboard.Prev | app/dashboard/page.tsx:312-320 | a no-op at index 0; otherwise index-1, dialing view, auto-advance cleared |
| Session.Dashboard.PauseResume | app/dashboard/page.tsx:324-332 | the pause flag flips; pausing also clears auto-advance and the slot's timer |
| Session.Dashboard.Stop | app/dashboard/page.tsx:334-339 | summary view, auto-advance cleared, queue, index and counters untouched |
| Session.Dashboard.DialVM | app/dashboard/page.tsx:343-351 | without a lead nothing changes; otherwise the lead gets min(vmCount+1, 3) and "nx VM", calls and voicemails go up by one, and the auto-advance starts under a fresh timer number |
| Session.Dashboard.OpenScript | app/dashboard/page.tsx:353-356 | the script view opens only when there is a lead |
| Session.Dashboard.DialNoAnswer | app/dashboard/page.tsx:358-363 | only calls goes up, the lead is untouched, and the auto-advance starts under a fresh timer number |
| Session.Dashboard.DialBadNumber | app/dashboard/page.tsx:365-371 | the lead becomes "Bad #" with its vmCount kept; calls and badNumbers go up by one; the auto-advance starts under a fresh timer number |
| Session.Dashboard.EndCall | app/dashboard/page.tsx:373-377 | calls goes up by one and the post-call view shows |
| Session.Dashboard.Outcome | app/dashboard/page.tsx:381-418 | the lead gets the outcome's status, the counters get its delta, and an untracked 800 ms advance is scheduled under a fresh timer number |
| Session.StopKeepsOutcomeAdvance | app/dashboard/page.tsx:415 | stopping after an outcome does not cancel its advance: the summary gives way to the next lead |
| Session.SkipDuringOutcomeDelay | app/dashboard/page.tsx:415 | skipping before the 800 ms advance runs moves on by two leads |
| Session.OverwrittenSlotStillAdvances | app/dashboard/page.tsx:198-201 | after two auto-advances, pausing clears only the second, and the first still advances the paused session |
| Session.PauseAfterTwoAdvances | app/dashboard/page.tsx:198-201 | after two auto-advances and a pause, the session is paused on the same lead and the first advance's timer is still pending |
| Dialing.StatusLabelPrecedence | app/dashboard/components/DialingView.tsx:155 | PAUSED, then "DIALING IN n...", then ON CALL, then DIALING, each exactly in its own case |
| Dialing.ButtonsExclusive | app/dashboard/components/DialingView.tsx:186-199 | no call button during a countdown or an auto-advance; no outcome buttons while paused or advancing |
| Dialing.DialingView.constructor | app/dashboard/components/DialingView.tsx:55-91 | mounting starts with nothing dialled and arms the countdown at 3 iff not paused and there is a lead |
| Dialing.DialingView.ClearCountdown | app/dashboard/components/DialingView.tsx:60-66 | the interval stops and the countdown hides |
| Dialing.DialingView.RunEffect | app/dashboard/components/DialingView.tsx:68-88 | the countdown arms (dialed false, countdown 3) exactly when not paused, there is a lead, and it is not the lead dialled last |
| Dialing.DialingView.Render | app/dashboard/components/DialingView.tsx:68-91 | unchanged props change nothing; changed ones run the cleanup, which clears the countdown without marking the lead dialled, and the effect runs again |
| Dialing.DialingView.Tick | app/dashboard/components/DialingView.tsx:76-88 | a tick lowers the count by one; at zero the countdown clears, the dialer opens once for the armed lead, it is remembered as dialled, and dialed is set |
| Dialing.DialingView.CancelCountdown | app/dashboard/components/DialingView.tsx:97-101 | no countdown, the shown lead counts as dialled, and dialed is false |
| Dialing.DialingView.ManualDial | app/dashboard/components/DialingView.tsx:186-197 | the call button opens the dialer once, remembers the lead, and sets dialed |
| Dialing.DialingView.Redial | app/dashboard/components/DialingView.tsx:282-290 | Re-dial opens the dialer again and changes nothing else |
| Dialing.DialingView.NoAnswer | app/dashboard/components/DialingView.tsx:213-217 | No Answer resets dialed before reporting |
| Dialing.CountdownDialsOnce | app/dashboard/components/DialingView.tsx:68-88 | after three ticks the lead has been dialled exactly once; a fourth tick adds nothing |
| Dialing.NoSecondAutoDial | app/dashboard/components/DialingView.tsx:70 | the lead dialled last is not counted down again while the screen stays mounted |
| Dialing.PauseRestartsCountdown | app/dashboard/components/DialingView.tsx:90-91 | pausing mid-countdown dials nothing, and resuming starts again at 3 |
| Dialing.RemountDialsAgain | app/dashboard/components/DialingView.tsx:58 | a newly mounted screen has forgotten the last dial and counts the same lead down again |
| Script.LeadVarsFacts | app/dashboard/components/ScriptView.tsx:19-21 | without a lead all three values are "___"; with one, firstName is the name up to its first space, and dob and state are the lead's values or "___" when empty |
| Script.ReplaceAbsent | app/dashboard/components/ScriptView.tsx:25-27 | text without the pattern comes back unchanged |
| Script.ReplaceBySelf | app/dashboard/components/ScriptView.tsx:25-27 | replacing a pattern by itself changes nothing |
| Script.ReplaceSkips | app/dashboard/components/ScriptView.tsx:25-27 | text without the pattern's first character is copied through |
| Script.ReplaceTemplate | app/dashboard/components/ScriptView.tsx:25-27 | pieces joined by the pattern become the pieces joined by the replacement: every occurrence is replaced |
| Script.FreeNotContains | app/dashboard/components/ScriptView.tsx:25-27 | text without a character does not contain a pattern starting with it |
| Script.InterleaveFree | app/dashboard/components/ScriptView.tsx:25-27 | joining character-free pieces with a character-free separator is character-free |
| Script.FillVarsNoPlaceholders | app/dashboard/components/ScriptView.tsx:23-27 | text with none of the three placeholders is shown as written |
| Script.FillVarsFirstName | app/dashboard/components/ScriptView.tsx:23-27 | every {firstName} in brace-free text becomes the first name |
| Script.FillVarsInOrder | app/dashboard/components/ScriptView.tsx:23-27 | the replacements run in order: a first name reading "{dob}" is then filled with the birth date |
| Script.ReplaceWhole | app/dashboard/components/ScriptView.tsx:25 | text that is just the pattern becomes just the replacement |
| Script.Toggle | app/dashboard/components/ScriptView.tsx:29-36 | the id's membership flips and every other id keeps its own |
| Script.ToggleTwice | app/dashboard/components/ScriptView.tsx:29-36 | toggling twice gives back the open set |
| Script.InitialOpen | app/dashboard/components/ScriptView.tsx:15-17 | the first section is open, or none when there are no sections |
| Script.AddSection | app/dashboard/components/ScriptSetupView.tsx:23-25 | exactly one section is appended, empty and carrying the fresh id; earlier ones are unchanged |
| Script.UpdateSection | app/dashboard/components/ScriptSetupView.tsx:26-28 | the list keeps its length |
| Script.UpdateSectionFacts | app/dashboard/components/ScriptSetupView.tsx:26-28 | only the named field of the sections with the id changes; ids, order and other sections stay |
| Script.UpdateSectionOverwrites | app/dashboard/components/ScriptSetupView.tsx:26-28 | a second edit of the same field replaces the first |
| Script.RemoveSection | app/dashboard/components/ScriptSetupView.tsx:29-31 | removal never lengthens the list and leaves no section with the id |
| Script.RemoveSectionMembers | app/dashboard/components/ScriptSetupView.tsx:29-31 | exactly the sections with another id remain |
| Script.RemoveSectionConcat | app/dashboard/components/ScriptSetupView.tsx:29-31 | removal distributes over concatenation, so order is kept |
| Script.RemoveSectionAbsent | app/dashboard/components/ScriptSetupView.tsx:29-31 | removing an id no section has changes nothing |
| Script.RemoveUndoesAdd | app/dashboard/components/ScriptSetupView.tsx:23-31 | adding a section with a fresh id and removing it gives back the list |
| Script.MoveSection | app/dashboard/components/ScriptSetupView.tsx:32-40 | length and multiset of sections are always preserved |
| Script.MoveSectionSwaps | app/dashboard/components/ScriptSetupView.tsx:32-40 | with the target in range the two sections trade places and the rest stay; otherwise the list is unchanged |
| Script.MoveSectionUndo | app/dashboard/components/ScriptSetupView.tsx:32-40 | moving down and then back up restores the list |
| Script.PasteScriptFacts | app/dashboard/components/ScriptSetupView.tsx:41-44 | blank text changes nothing; anything else becomes a single FULL SCRIPT section whose body is the trimmed text |
| LeadsApi.KeptConcat | app/api/leads/route.ts:52-57 | the filter distributes over concatenation, so input order is kept |
| LeadsApi.KeptMembers | app/api/leads/route.ts:52-57 | the filter throws (None) iff some element is null or undefined; otherwise it keeps exactly the object inputs whose name and phone are non-blank strings, never more than the input |
| LeadsApi.SliceOr | app/api/leads/route.ts:72-76 | `(v \|\| "").slice(0, n)` gives "" for a falsy value and the first n characters of a non-empty string |
| LeadsApi.RowOfFacts | app/api/leads/route.ts:68-78 | the row throws iff dob, state or notes is truthy but neither string nor array; otherwise it has the user id, name ≤ 200 and phone ≤ 30 as prefixes of the input, dob ≤ 20, state ≤ 5 and notes ≤ 2000; status defaults to "NEW LEAD", vm_count to 0, a null age to null, and an age of 0 is kept |
| LeadsApi.RowAttempts | app/api/leads/route.ts:58-79 | one attempted row per kept lead |
| LeadsApi.RowsOneForOne | app/api/leads/route.ts:52-79 | the rows are the kept leads' rows, one for one and in order |
| LeadsApi.Others | app/api/leads/route.ts:50 | the delete leaves exactly the other users' rows |
| LeadsApi.PostFacts | app/api/leads/route.ts:28-92 | 401 without a user and 413 over 2 MiB, both without deleting; without the delete the store is untouched; after the delete the user's only rows are the inserted ones; 200 iff rows are inserted, which needs a `leads` array of 1..5000 entries whose usable leads give exactly those rows, in order |
| LeadsApi.NoValidLeadsStillDeletes | app/api/leads/route.ts:50-83 | a request with no usable lead answers 400 but has already emptied the user's leads |
| LeadsApi.ClampVm | app/api/leads/route.ts:108 | vm_count lies in 0..99, is the number when it is already in range, and is 0 for a non-number |
| LeadsApi.Patch | app/api/leads/route.ts:94-122 | 401 without a user; 500 for a null body; otherwise 400 iff the id is missing, not a number, or 0; else the update for that id holds updated_at, and status (cut to 50), vm_count (clamped) and notes (cut to 2000) exactly when supplied, with 200 or 500 by the database result |
| LeadsApi.AuthGate | app/api/leads/route.ts:8-12 | GET, POST and DELETE all answer 401 and write nothing without a user |
| ScriptsApi.CleanText | app/api/scripts/route.ts:49-51 | the text is at most n long, "" for a falsy value, and a string's prefix otherwise |
| ScriptsApi.CleanAttempts | app/api/scripts/route.ts:47-53 | one cleaned section per input section |
| ScriptsApi.PutFacts | app/api/scripts/route.ts:28-69 | 401 without a user; nothing stored on 400, 401 or 413; 413 only above 100 KiB; what is stored has one cleaned section per input section, in order, at most 50, with id ≤ 100, title ≤ 200 and body ≤ 50000 |
| ScriptsApi.CleanEmptyObject | app/api/scripts/route.ts:48-52 | missing fields become "" |
| ScriptsApi.CleanStoredSection | app/api/scripts/route.ts:48-52 | cleaning a section already within the limits gives it back |
| ScriptsApi.CleanedIsClean | app/api/scripts/route.ts:48-52 | every cleaned section is within the limits |
| ScriptsApi.CleanStoredList | app/api/scripts/route.ts:47-53 | cleaning a stored list gives it back, section for section |
| ScriptsApi.StoredIsClean | app/api/scripts/route.ts:35-53 | what PUT stores is at most 50 sections, each within the limits |
| ScriptsApi.PutStored | app/api/scripts/route.ts:28-69 | sending back a list within the limits stores that same list |
| ScriptsApi.PutIsIdempotent | app/api/scripts/route.ts:8-69 | saving what GET returns after a successful PUT stores the same list again |
| ScriptsApi.GetScriptFacts | app/api/scripts/route.ts:8-26 | GET gives [] for a user without a script, the stored value otherwise, and 401 without a user |
| StripeWebhook.HandleFacts | app/api/webhook/route.ts:6-75 | a bad signature gives 400 and no update; checkout.session.completed writes customer, subscription, "active" and "solo" only with user, subscription and customer present; subscription.updated copies the status; subscription.deleted writes "canceled" and "none"; anything else, or no user id, writes nothing; a verified event always gets 200 |
| StripeWebhook.CheckoutThenCancel | app/api/webhook/route.ts:24-71 | a checkout followed by a cancellation leaves the user canceled on plan "none", with the customer and subscription ids kept |
| CallApi.NormaliseToFacts | api/call.js:26 | the number sent always starts with '+'; a '+' number goes verbatim; any other is "+1" and its digits minus one leading 1 |
| CallApi.NormaliseToIdempotent | api/call.js:26 | normalising twice is normalising once |
| CallApi.NormaliseToAgreesWithCleanPhone | api/call.js:26 | for a number without '+' that the dashboard cleans to ten digits not starting with 1, the number dialled is "+1" and that cleaned phone |
| CallApi.NormaliseToExample | api/call.js:26 | "1-800" becomes "+1800" |
| CallApi.NormaliseToShortNumber | skipdial/api/call.js:33 | the leading 1 goes even from a two-digit number: "12" becomes "+12" |
| CallApi.NormaliseToDropsAnyLeadingOne | skipdial/api/call.js:33 | any run of digits starting with 1 is sent as "+1" and the rest, whatever its length |
| CallApi.WebhookUrlFacts | api/call.js:12-14 | the URL ends in /api/webhook; api/call.js always starts it with https://, falling back to the request host; skipdial/api/call.js uses VERCEL_URL bare when it is set |
| CallApi.HandleFacts | api/call.js:5-82 | OPTIONS 200 first; no key 500; at most one request, and none on 400; a dial sends the normalised number and the webhook URL; "vm_drop" is answered iff the recording is played; "hangup_no_vm" only without a recording, by a hangup |
| CallApi.HandleRefusals | skipdial/api/call.js:22-115 | an unknown action, a dial without `to`, or hangup/vm_drop without a call id get 400 and send nothing |
| OutboundWebhook.DispatchFacts | api/webhook.js:5-62 | OPTIONS and every POST answer 200, errors included; other verbs 405; at most one request is sent, only for a POST with a key, and a playback uses the configured recording |
| OutboundWebhook.MachineDetected | api/webhook.js:20-39 | with a key, a machine gets the recording played when set, else a hangup |
| OutboundWebhook.NoActionWithoutMachineAndKey | api/webhook.js:22 | a human or unsure result, or no key, sends nothing |
| OutboundWebhook.PlaybackEndedHangsUp | api/webhook.js:43-53 | the end of a recording hangs up once, given a key |
| OutboundWebhook.NoDataNoCalls | api/webhook.js:12 | a POST without data is acknowledged and sends nothing |
| TelnyxEvents.EventLog.constructor | skipdial/api/webhook.js:7-8 | the log starts empty with the given capacity |
| TelnyxEvents.EventLog.AddEvent | skipdial/api/webhook.js:10-13 | push then shift: the log stays within the capacity and is always the last `cap` events ever added, oldest first; only the front is evicted |
| TelnyxEvents.EventLog.AddEvents | skipdial/api/webhook.js:44-150 | a request's events go through `addEvent` one by one in the order recorded: the history grows by exactly their stamped entries and the log stays within capacity |
| TelnyxEvents.AfterMembers | skipdial/api/webhook.js:24-26 | a poll returns exactly the logged events newer than `since`, and nothing when `since` is not a number |
| TelnyxEvents.AfterConcat | webhook.js:16-18 | the poll keeps log order |
| TelnyxEvents.AfterCons | webhook.js:16-18 | the first event is kept exactly when it is newer than `since` |
| TelnyxEvents.SinceOfMissing | skipdial/api/webhook.js:24 | a missing or empty `since` polls from 0 |
| TelnyxEvents.SinceOfDecimal | skipdial/api/webhook.js:24 | decimal `since` text polls from its value |
| TelnyxEvents.SinceOfHex | skipdial/api/webhook.js:24 | `since` text "0x" followed by hexadecimal digits polls from their radix-16 value |
| TelnyxEvents.SinceOfBareHex | skipdial/api/webhook.js:24-26 | a bare "0x" reads as NaN, so the poll returns nothing |
| TelnyxEvents.SinceHexExample | skipdial/api/webhook.js:24-26 | `?since=0x10` returns the events after 16 |
| Js.ParseIntAutoHex | webhook.js:16 | radix-less `parseInt` reads a sign, a `0x` or `0X` prefix and hexadecimal digits as the signed radix-16 value |
| Js.ParseIntAutoBareHexPrefix | webhook.js:16 | a `0x` prefix with no hexadecimal digit after it is NaN |
| Js.ParseIntAutoDigits | webhook.js:16 | on plain decimal digits radix-less `parseInt` agrees with radix 10 and gives their value |
| TelnyxEvents.AfterIsSuffix | webhook.js:16-18 | with non-decreasing timestamps a poll returns a tail of the log |
| TelnyxEvents.AfterAll | webhook.js:16-18 | when every event is newer than `since`, the whole log is returned |
| TelnyxEvents.PollSeesNewest | skipdial/api/webhook.js:10-27 | an event added with a newer time shows up last in the next poll; a `since` at or past every timestamp returns nothing |
| TelnyxEvents.MachineResult | skipdial/api/webhook.js:63-112 | amd_result is always logged first; for a machine with recording and key, vm_dropped and a playback; otherwise skipdial/api/webhook.js logs machine_hangup even without a key, webhook.js only with one, and the hangup is sent only with a key |
| TelnyxEvents.HumanResult | webhook.js:37-41 | a non-machine result is only logged |
| TelnyxEvents.InitiatedMapping | skipdial/api/webhook.js:44-52 | call.initiated is logged as call_initiated with caller and direction |
| TelnyxEvents.AnsweredMapping | webhook.js:33-35 | call.answered is logged as call_answered; only skipdial/api/webhook.js adds answered_by "human" |
| TelnyxEvents.HangupMapping | webhook.js:62-64 | call.hangup is logged as call_ended with cause and duration; only skipdial/api/webhook.js keeps the hangup source |
| TelnyxEvents.PlaybackEndedMapping | skipdial/api/webhook.js:126-143 | call.playback.ended is logged as vm_complete, with a hangup iff a key is set |
| TelnyxEvents.OtherMapping | webhook.js:78-79 | any other type is logged under its own name; only skipdial/api/webhook.js adds `raw` |
| TelnyxEvents.MissingPayloadThrows | skipdial/api/webhook.js:40-150 | handling throws exactly for a null or undefined payload on a named type, and in skipdial/api/webhook.js for any undefined payload (its log line cannot serialise it) |
| TelnyxEvents.RecordBounds | skipdial/api/webhook.js:43-150 | a POST logs one or two events and sends at most one request, and only with a key |
| TelnyxEvents.Stamp | skipdial/api/webhook.js:10-12 | one entry per recorded event |
| TelnyxEvents.StampKeepsFields | skipdial/api/webhook.js:10-12 | each entry keeps its event's fields and carries the request's `Date.now()` |
| TelnyxEvents.StampSnoc | skipdial/api/webhook.js:10-12 | stamping one more event appends exactly that event's entry, so events are logged in the order recorded |
| TelnyxEvents.Serve | skipdial/api/webhook.js:15-158 | OPTIONS 200; GET returns the events after `parseInt(since \|\| '0')`, read without a radix (so `0x` text is hexadecimal and a bare `0x` is NaN), and leaves the log alone; other non-POSTs 405; a POST without data logs nothing; a throwing POST answers 500 and logs nothing; otherwise its events are appended one `addEvent` at a time, the log stays within its capacity, and the requests are sent |

## Left out

- I/O. The Clerk session, Supabase queries, `localStorage`, `FileReader`,
  the DOM anchor click that opens the dialer, and every `fetch` are not
  performed. A database result is a boolean parameter. An HTTP request is a
  returned value. Toasts are a field.
- Real timers. The 1500 ms and 800 ms timeouts and the one-second countdown
  interval are explicit steps (`FireTimer`, `Tick`). The call-duration timer and
  the toast timer are not modelled.
- Floating point. The local hour is whole minutes of the day, so the rounding
  of `Math.floor((hour % 1) * 60)` is not modelled. The progress percentage is
  display only.
- Date semantics. `new Date(y, m - 1, d)` rolls out-of-range months and days
  over. That roll-over is not modelled: `Age` compares the raw (month, day)
  parts. Years 0..99 are read as 1900..1999, as the source does. The current
  date is a parameter.
- Character handling. Case mapping (`toUpperCase`, `toLowerCase`) is ASCII
  only. White space follows the full set that JavaScript's `trim` removes.
  `JSON.stringify(sections).length` in the scripts PUT is the parameter
  `serialisedSize`.
- LeadsApi.SliceOr, ScriptsApi.CleanText, Format.GetInitials and
  Format.AvatarColor count characters as Unicode scalar values. JavaScript's
  `.slice`, `.length`, `n[0]` and `charCodeAt` count UTF-16 code units. So
  text outside the Basic Multilingual Plane is cut, indexed and hashed
  differently.
- Csv.StatusOf maps every cell that is not a status key to "NEW LEAD". In
  JavaScript, `STATUS_MAP[cell.toLowerCase()]` also reads keys inherited
  from the object prototype, so a cell such as "constructor" or
  "__proto__" yields a truthy non-string value. That case is not modelled.
- Csv.MapServerLeads substitutes the default, or null for `age`, for a
  value of the wrong type (an `id` given as the text "7" becomes the
  position). The `as` casts in
  `mapServerLeads` do not convert, so a truthy value of the wrong type is
  kept as it is. That case is not modelled.
- Js.ToNumber reads unsigned decimal digits only. `Number()` of signed,
  fractional, exponent or hexadecimal text, and of floats, is not modelled.
  So `ClampVm` and `parseInt` see only integers, and `parseInt` of a number
  beyond 2^53 is exact here where JavaScript rounds it.
- Script.ReplaceAll does not model the `$&`, `$1` and `$$` patterns that
  JavaScript's `String.prototype.replace` interprets in a replacement string. A
  lead's name containing `$` is copied literally.
- Script.MoveSection requires `idx` to be a position of the list. The editor's
  arrows only pass positions of the list, and an out-of-range `idx` would
  make the source write `undefined` holes into the array.
- Section ids from `crypto.randomUUID()` are a parameter `freshId`. Their
  uniqueness is a precondition of `Script.RemoveUndoesAdd`, not a fact the
  model derives.
- Invalid JSON bodies, which make `req.json()` throw, are not modelled. Nor
  are Content-Length headers that are not a decimal prefix.
- TelnyxEvents.Stamp gives every event of one POST the same timestamp.
  TelnyxEvents.Serve and TelnyxEvents.EventLog.AddEvents append one POST's
  events in a single step. In the source, a machine result logs `amd_result`,
  then awaits a Telnyx request, and only then logs `vm_dropped` or
  `machine_hangup` (skipdial/api/webhook.js:66-106, webhook.js:39-57). So
  the two timestamps differ by a whole round trip. During that wait a GET
  poll or another POST can run against the same module-level `events`
  array. A poll can then see `amd_result` without its follow-up, and
  another request's events can land between the two. The model does not
  capture this interleaving of concurrent requests.
- The call ids returned by a successful dial, and the error details of a
  failed one, are not modelled; only the status is.
- Network failures of `fetch` inside the Telnyx handlers are not modelled.
  Neither is the fire-and-forget PATCH failure toast.
- LeadsApi.GetStatus models only the GET status. The rows returned, in
  creation order, are database data not modelled here.
- The Stripe signature check is an `Option<Event>`: None stands for a failed
  `constructEvent`.
- StripeWebhook.Handle does not model the `updated_at` timestamp
  (`new Date().toISOString()`) that all three updates write
  (app/api/webhook/route.ts:35, 50, 66), because the clock is not modelled.
  The update carries only the plan, status and Stripe ids.
- Left outside the model: the checkout, billing, token and user routes, the
  Stripe and Supabase client singletons, and the presentation-only components
  (layout, landing page, theme toggle, badges, paywall, upload, summary and
  post-call views).
