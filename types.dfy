/** The record shapes the dashboard passes around (app/dashboard/lib/types.ts). */
module Types {
  import opened Js

  /** One prospect to call. `age` is None where the source has `null`. */
  datatype Lead = Lead(
    id: int,
    name: string,
    phone: string,
    dob: string,
    age: Option<int>,
    state: string,
    status: string,
    notes: string,
    vmCount: int)

  /** The seven per-session counters. */
  datatype SessionStats = SessionStats(
    calls: int,
    voicemails: int,
    appointments: int,
    sold: int,
    callbacks: int,
    badNumbers: int,
    notInterested: int)

  /** The dashboard's screens. */
  datatype View = Upload | ScriptSetup | List | Dialing | Script | PostCall | Summary | Paywall

  /** One titled block of the call script. */
  datatype ScriptSection = ScriptSection(id: string, title: string, body: string)

  /** Every counter of `b` is at least the matching counter of `a`. */
  predicate StatsLe(a: SessionStats, b: SessionStats)
  {
    && a.calls <= b.calls && a.voicemails <= b.voicemails && a.appointments <= b.appointments
    && a.sold <= b.sold && a.callbacks <= b.callbacks && a.badNumbers <= b.badNumbers
    && a.notInterested <= b.notInterested
  }

  /** The sum of all seven counters. */
  function StatsTotal(s: SessionStats): int
  {
    s.calls + s.voicemails + s.appointments + s.sold + s.callbacks + s.badNumbers + s.notInterested
  }
}
