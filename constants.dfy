/** The dialer's fixed tables (app/dashboard/lib/constants.ts). */
module Constants {
  import opened Js
  import opened Types

  /** Every counter starts at zero. */
  const InitialStats: SessionStats := SessionStats(0, 0, 0, 0, 0, 0, 0)

  lemma InitialStatsZero()
    ensures StatsTotal(InitialStats) == 0
    ensures forall s: SessionStats :: StatsLe(s, InitialStats) && StatsLe(InitialStats, s) ==> s == InitialStats
  {
  }

  /** The 50 states and DC, in alphabetical order, in four runs. */
  const CodesAtoD: seq<string> := ["AK", "AL", "AR", "AZ", "CA", "CO", "CT", "DC", "DE"]
  const CodesFtoL: seq<string> := ["FL", "GA", "HI", "IA", "ID", "IL", "IN", "KS", "KY", "LA"]
  const CodesMtoN: seq<string> := ["MA", "MD", "ME", "MI", "MN", "MO", "MS", "MT", "NC", "ND", "NE", "NH", "NJ", "NM", "NV", "NY"]
  const CodesOtoW: seq<string> := ["OH", "OK", "OR", "PA", "RI", "SC", "SD", "TN", "TX", "UT", "VA", "VT", "WA", "WI", "WV", "WY"]

  function StateCodes(): seq<string>
  {
    CodesAtoD + CodesFtoL + CodesMtoN + CodesOtoW
  }

  /** STATE_UTC_OFFSETS: standard-time offset from UTC in hours; None off the table. */
  function UtcOffset(state: string): Option<int>
  {
    match state
    case "CT" => Some(-5) case "DC" => Some(-5) case "DE" => Some(-5) case "FL" => Some(-5)
    case "GA" => Some(-5) case "IN" => Some(-5) case "KY" => Some(-5) case "MA" => Some(-5)
    case "MD" => Some(-5) case "ME" => Some(-5) case "MI" => Some(-5) case "NC" => Some(-5)
    case "NH" => Some(-5) case "NJ" => Some(-5) case "NY" => Some(-5) case "OH" => Some(-5)
    case "PA" => Some(-5) case "RI" => Some(-5) case "SC" => Some(-5) case "TN" => Some(-5)
    case "VA" => Some(-5) case "VT" => Some(-5) case "WV" => Some(-5)
    case "AL" => Some(-6) case "AR" => Some(-6) case "IA" => Some(-6) case "IL" => Some(-6)
    case "KS" => Some(-6) case "LA" => Some(-6) case "MN" => Some(-6) case "MO" => Some(-6)
    case "MS" => Some(-6) case "ND" => Some(-6) case "NE" => Some(-6) case "OK" => Some(-6)
    case "SD" => Some(-6) case "TX" => Some(-6) case "WI" => Some(-6)
    case "AZ" => Some(-7) case "CO" => Some(-7) case "ID" => Some(-7) case "MT" => Some(-7)
    case "NM" => Some(-7) case "UT" => Some(-7) case "WY" => Some(-7)
    case "CA" => Some(-8) case "NV" => Some(-8) case "OR" => Some(-8) case "WA" => Some(-8)
    case "AK" => Some(-9)
    case "HI" => Some(-10)
    case _ => None
  }

  /** Every offset on the table lies between Hawaii's and Eastern time. */
  lemma OffsetRange(s: string)
    ensures UtcOffset(s).Some? ==> -10 <= UtcOffset(s).value <= -5
  {
  }

  /** The table's keys are exactly the listed codes. */
  lemma OffsetDomain(s: string)
    ensures UtcOffset(s).Some? <==> s in StateCodes()
  {
  }

  /** A two-letter code as a number, so that alphabetical order of codes is numeric order. */
  function CodeKey(s: string): int
  {
    if |s| == 2 then (s[0] as int) * 256 + s[1] as int else 0
  }

  predicate KeysAscend(c: seq<string>)
  {
    forall i | 0 <= i < |c| - 1 :: CodeKey(c[i]) < CodeKey(c[i + 1])
  }

  /** In a list whose neighbours ascend, every earlier code is below every later one. */
  lemma {:induction false} KeysIncrease(c: seq<string>, i: nat, j: nat)
    requires KeysAscend(c) && i < j < |c|
    ensures CodeKey(c[i]) < CodeKey(c[j])
    decreases j - i
  {
    if j > i + 1 {
      KeysIncrease(c, i + 1, j);
    }
  }

  /** Each of the four runs of codes is in alphabetical order. */
  lemma RunsAscend()
    ensures KeysAscend(CodesAtoD) && KeysAscend(CodesFtoL) && KeysAscend(CodesMtoN) && KeysAscend(CodesOtoW)
  {
  }

  /** Two ascending runs joined in order ascend. */
  lemma AscendConcat(a: seq<string>, b: seq<string>)
    requires KeysAscend(a) && KeysAscend(b) && a != [] && b != []
    requires CodeKey(a[|a| - 1]) < CodeKey(b[0])
    ensures KeysAscend(a + b)
  {
    var c := a + b;
    forall i | 0 <= i < |c| - 1
      ensures CodeKey(c[i]) < CodeKey(c[i + 1])
    {
      if i < |a| - 1 {
        assert c[i] == a[i] && c[i + 1] == a[i + 1];
      } else if i == |a| - 1 {
        assert c[i] == a[i] && c[i + 1] == b[0];
      } else {
        assert c[i] == b[i - |a|] && c[i + 1] == b[i - |a| + 1];
      }
    }
  }

  /** The table lists 51 codes (the 50 states and DC), each once. */
  lemma StateCodesDistinct()
    ensures |StateCodes()| == 51
    ensures forall i, j | 0 <= i < j < |StateCodes()| :: StateCodes()[i] != StateCodes()[j]
  {
    var c := StateCodes();
    RunsAscend();
    AscendConcat(CodesAtoD, CodesFtoL);
    AscendConcat(CodesAtoD + CodesFtoL, CodesMtoN);
    AscendConcat(CodesAtoD + CodesFtoL + CodesMtoN, CodesOtoW);
    forall i, j | 0 <= i < j < |c|
      ensures c[i] != c[j]
    {
      KeysIncrease(c, i, j);
    }
  }

  /** NO_DST_STATES. */
  const NoDstStates: set<string> := {"AZ", "HI"}

  lemma NoDstOnTable()
    ensures forall s | s in NoDstStates :: UtcOffset(s).Some?
  {
  }

  /** AVATAR_COLORS: the eight avatar background colours. */
  const AvatarColors: seq<string> := ["#6366F1", "#8B5CF6", "#EC4899", "#F97316", "#0EA5E9", "#14B8A6", "#84CC16", "#F59E0B"]

  /** The keys of STATUS_STYLES: the statuses the UI knows how to colour. */
  const StatusStyles: set<string> := {
    "NEW LEAD", "Follow Up", "1x VM", "2x VM", "3x VM", "Scheduled Appt",
    "SOLD", "Bad #", "Not Interested", "DNC", "Already Covered"}

  /** SKIPPED_STATUSES: leads with these never enter the dial queue. */
  const SkippedStatuses: set<string> := {"SOLD", "Bad #", "Not Interested", "DNC", "Already Covered"}

  lemma StyleTables()
    ensures |StatusStyles| == 11 && |SkippedStatuses| == 5
    ensures SkippedStatuses <= StatusStyles
    ensures "NEW LEAD" in StatusStyles && "NEW LEAD" !in SkippedStatuses
  {
  }

  /** One entry of DEMO_LEADS_RAW. */
  datatype RawLead = RawLead(name: string, phone: string, dob: string, state: string, status: string, notes: string)

  const DemoLeadsRaw: seq<RawLead> := [
    RawLead("James Williams", "2025551234", "03/15/1952", "VA", "NEW LEAD", ""),
    RawLead("Dorothy Henderson", "7135559876", "07/22/1948", "TX", "NEW LEAD", ""),
    RawLead("Robert Martinez", "3055554321", "11/03/1955", "FL", "Follow Up", "Called Tuesday, wants to discuss with wife"),
    RawLead("Mary Thompson", "6025558765", "01/28/1960", "AZ", "NEW LEAD", ""),
    RawLead("Charles Davis", "4045556789", "09/14/1950", "GA", "1x VM", ""),
    RawLead("Patricia Wilson", "2145553456", "05/30/1958", "TX", "NEW LEAD", ""),
    RawLead("Richard Brown", "7575552345", "12/08/1945", "VA", "2x VM", ""),
    RawLead("Barbara Jones", "9045557890", "04/17/1953", "FL", "NEW LEAD", ""),
    RawLead("William Anderson", "5105551122", "08/25/1962", "CA", "NEW LEAD", ""),
    RawLead("Linda Garcia", "3125553344", "02/11/1957", "IL", "Scheduled Appt", "Appt Thursday 2pm"),
    RawLead("Thomas Clark", "8085559900", "06/19/1949", "HI", "NEW LEAD", ""),
    RawLead("Susan Taylor", "7705558877", "10/02/1965", "GA", "Not Interested", "Has coverage through employer")
  ]

  /** Every demo lead has a status the UI knows. */
  lemma DemoStatusesKnown()
    ensures |DemoLeadsRaw| == 12
    ensures forall i | 0 <= i < |DemoLeadsRaw| :: DemoLeadsRaw[i].status in StatusStyles
  {
  }

  /** Every demo lead lives in a state on the offset table. */
  lemma DemoStatesOnTable()
    ensures forall i | 0 <= i < |DemoLeadsRaw| :: UtcOffset(DemoLeadsRaw[i].state).Some?
  {
  }

  /** Every demo phone is ten digits. */
  lemma DemoPhonesTenDigits()
    ensures forall i | 0 <= i < |DemoLeadsRaw| :: |DemoLeadsRaw[i].phone| == 10 && AllDigits(DemoLeadsRaw[i].phone)
  {
    forall i | 0 <= i < |DemoLeadsRaw|
      ensures |DemoLeadsRaw[i].phone| == 10 && AllDigits(DemoLeadsRaw[i].phone)
    {
      var p := DemoLeadsRaw[i].phone;
      assert |p| == 10;
      assert forall j | 0 <= j < 10 :: '0' <= p[j] <= '9';
    }
  }
}
