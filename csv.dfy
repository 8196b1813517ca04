/**
 * Turning text into leads: the status synonym table and `parseCSV`
 * (app/dashboard/lib/utils.ts:106-143), the demo list (`buildDemoLeads`,
 * 145-157) and the defaulting of records read back from the server
 * (`mapServerLeads`, 161-173). The parser cuts every line at each delimiter;
 * quoted fields are not treated specially (this is not RFC 4180).
 */
module Csv {
  import opened Js
  import opened Types
  import opened Constants
  import opened Phone
  import opened Format

  // ------------------------------------------------------------ status table

  /** STATUS_MAP: lower-cased spellings a spreadsheet may use, and the status each stands for. */
  const StatusMap: map<string, string> := map[
    "new" := "NEW LEAD", "new lead" := "NEW LEAD",
    "follow up" := "Follow Up", "callback" := "Follow Up", "follow-up" := "Follow Up",
    "vm" := "1x VM", "voicemail" := "1x VM", "1x vm" := "1x VM", "2x vm" := "2x VM", "3x vm" := "3x VM",
    "appt" := "Scheduled Appt", "appointment" := "Scheduled Appt", "scheduled" := "Scheduled Appt",
    "sold" := "SOLD",
    "bad" := "Bad #", "bad number" := "Bad #", "bad #" := "Bad #",
    "not interested" := "Not Interested", "ni" := "Not Interested",
    "dnc" := "DNC", "do not call" := "DNC",
    "covered" := "Already Covered", "already covered" := "Already Covered"]

  /** Every synonym leads to a status the UI knows. */
  lemma StatusMapInStyles()
    ensures forall k | k in StatusMap :: StatusMap[k] in StatusStyles
  {
  }

  /** `STATUS_MAP[cell.toLowerCase()] || "NEW LEAD"`. */
  function StatusOf(cell: string): string
  {
    var key := ToLower(cell);
    if key in StatusMap then StatusMap[key] else "NEW LEAD"
  }

  /** Whatever the cell says, the status is one the UI knows. */
  lemma StatusOfKnown(cell: string)
    ensures StatusOf(cell) in StatusStyles
  {
    StatusMapInStyles();
  }

  /** The voicemail count a status implies: n for "nx VM", otherwise 0. */
  function VmCountOf(status: string): int
  {
    if status == "1x VM" then 1 else if status == "2x VM" then 2 else if status == "3x VM" then 3 else 0
  }

  // ------------------------------------------------------------- line level

  /** Drop one '\r' at the end: the `\r?` of the `/\r?\n/` separator. */
  function StripCr(s: string): string
  {
    if s != [] && s[|s| - 1] == '\r' then s[..|s| - 1] else s
  }

  /** `text.split(/\r?\n/)`. */
  function SplitLines(text: string): (r: seq<string>)
    ensures |r| >= 1
  {
    var parts := Split(text, '\n');
    seq(|parts|, i requires 0 <= i < |parts| => if i < |parts| - 1 then StripCr(parts[i]) else parts[i])
  }

  /** `.filter((l) => l.trim())`. */
  function NonBlank(lines: seq<string>): (r: seq<string>)
    ensures |r| <= |lines|
    ensures forall i | 0 <= i < |r| :: Trim(r[i]) != ""
  {
    if lines == [] then []
    else if Trim(lines[0]) != "" then [lines[0]] + NonBlank(lines[1..])
    else NonBlank(lines[1..])
  }

  /** The tab character when the header line has one, else the comma. */
  function Delimiter(header: string): char
  {
    if '\t' in header then '\t' else ','
  }

  /** `.replace(/['"]/g, "")`: every quote character removed. */
  function RemoveQuotes(s: string): (r: string)
    ensures '\'' !in r && '"' !in r
  {
    if s == [] then []
    else (if s[0] == '\'' || s[0] == '"' then [] else [s[0]]) + RemoveQuotes(s[1..])
  }

  predicate IsQuote(c: char) { c == '\'' || c == '"' }

  /** `.replace(/^['"]|['"]$/g, "")`: one quote off the front and one off the back. */
  function StripOuterQuotes(s: string): (r: string)
    ensures |r| <= |s|
  {
    var t := if s != [] && IsQuote(s[0]) then s[1..] else s;
    if t != [] && IsQuote(t[|t| - 1]) then t[..|t| - 1] else t
  }

  /** The header names: trimmed, lower-cased, quotes removed. */
  function Headers(line: string, delim: char): (r: seq<string>)
    ensures |r| == |Split(line, delim)|
  {
    var raw := Split(line, delim);
    seq(|raw|, i requires 0 <= i < |raw| => RemoveQuotes(ToLower(Trim(raw[i]))))
  }

  /** The cells of a data line: trimmed, outer quotes removed. */
  function Cells(line: string, delim: char): (r: seq<string>)
    ensures |r| == |Split(line, delim)|
  {
    var raw := Split(line, delim);
    seq(|raw|, i requires 0 <= i < |raw| => StripOuterQuotes(Trim(raw[i])))
  }

  /** `cols[k] || ""`: a missing cell reads as empty. */
  function Cell(cols: seq<string>, k: int): string
  {
    if 0 <= k < |cols| then cols[k] else ""
  }

  /** `headers.findIndex((h) => h.includes(p))`. */
  function FindColumn(headers: seq<string>, p: string): (r: int)
    ensures -1 <= r < |headers|
    ensures r == -1 <==> forall j | 0 <= j < |headers| :: !Contains(headers[j], p)
    ensures r >= 0 ==> Contains(headers[r], p) && forall j | 0 <= j < r :: !Contains(headers[j], p)
  {
    if headers == [] then -1
    else if Contains(headers[0], p) then 0
    else
      var k := FindColumn(headers[1..], p);
      assert forall j | 1 <= j < |headers| :: headers[j] == headers[1..][j - 1];
      if k == -1 then -1 else k + 1
  }

  /** Where each field sits in a row, -1 when no header names it. */
  datatype Columns = Columns(name: int, phone: int, dob: int, state: int, status: int, notes: int)

  function ColumnsOf(headers: seq<string>): Columns
  {
    Columns(FindColumn(headers, "name"), FindColumn(headers, "phone"), FindColumn(headers, "dob"),
            FindColumn(headers, "state"), FindColumn(headers, "status"), FindColumn(headers, "note"))
  }

  /** The optional cell `c` names, or "" when there is no such column. */
  function Field(cols: seq<string>, k: int): string
  {
    if k != -1 then Cell(cols, k) else ""
  }

  /** Every lead the parser keeps is usable, its status known and its voicemail count in step with it. */
  predicate ParsedLeadOk(l: Lead)
  {
    && l.name != "" && |l.phone| >= 7 && AllDigits(l.phone)
    && l.status in StatusStyles && l.vmCount == VmCountOf(l.status)
    && ToUpper(l.state) == l.state
  }

  /** The lead a data line yields, if its name is non-empty and its cleaned phone has at least 7 digits. */
  function LeadOfLine(line: string, delim: char, c: Columns, id: int, today: LocalDate): Option<Lead>
  {
    var cols := Cells(line, delim);
    var name := Cell(cols, c.name);
    var phone := CleanPhone(Cell(cols, c.phone));
    if name == "" || |phone| < 7 then None
    else
      var dob := Field(cols, c.dob);
      var status := StatusOf(Field(cols, c.status));
      Some(Lead(id, name, phone, dob, Age(dob, today), ToUpper(Field(cols, c.state)), status,
                Field(cols, c.notes), VmCountOf(status)))
  }

  /** A line that yields a lead yields a well-formed one, carrying the given id. */
  lemma LeadOfLineOk(line: string, delim: char, c: Columns, id: int, today: LocalDate)
    ensures LeadOfLine(line, delim, c, id, today).Some? ==>
      ParsedLeadOk(LeadOfLine(line, delim, c, id, today).value) && LeadOfLine(line, delim, c, id, today).value.id == id
  {
    var cols := Cells(line, delim);
    StatusOfKnown(Field(cols, c.status));
    ToUpperIdempotent(Field(cols, c.state));
  }

  /** What each line yields, by position (line 0, the header, included but never collected). */
  function Outcomes(lines: seq<string>, delim: char, c: Columns, today: LocalDate): (r: seq<Option<Lead>>)
    ensures |r| == |lines|
  {
    seq(|lines|, i requires 0 <= i < |lines| => LeadOfLine(lines[i], delim, c, i, today))
  }

  function OptionToSeq(o: Option<Lead>): seq<Lead>
  {
    if o.Some? then [o.value] else []
  }

  /** Line j yields `LeadOfLine` of that line with id j. */
  lemma OutcomesAt(lines: seq<string>, delim: char, c: Columns, today: LocalDate)
    ensures forall j | 0 <= j < |lines| :: Outcomes(lines, delim, c, today)[j] == LeadOfLine(lines[j], delim, c, j, today)
  {
  }

  /** The leads yielded by lines 1..k-1, in order. */
  function Collect(outs: seq<Option<Lead>>, k: int): seq<Lead>
    requires k <= |outs|
    decreases k
  {
    if k <= 1 then [] else Collect(outs, k - 1) + OptionToSeq(outs[k - 1])
  }

  /** What `parseCSV(text)` returns when run on `today`. */
  function Csv(text: string, today: LocalDate): seq<Lead>
  {
    var lines := NonBlank(SplitLines(text));
    if |lines| < 2 then []
    else
      var delim := Delimiter(lines[0]);
      var c := ColumnsOf(Headers(lines[0], delim));
      if c.name == -1 || c.phone == -1 then []
      else Collect(Outcomes(lines, delim, c, today), |lines|)
  }

  /** The body of `parseCSV`'s loop for one data line: skip it, or build its lead. */
  method ParseLine(line: string, delim: char, c: Columns, id: int, today: LocalDate) returns (lead: Option<Lead>)
    ensures lead == LeadOfLine(line, delim, c, id, today)
  {
    var cols := Cells(line, delim);
    var name := Cell(cols, c.name);
    var phone := CleanPhone(Cell(cols, c.phone));
    if name == "" || |phone| < 7 {
      return None;
    }
    var dob := if c.dob != -1 then Cell(cols, c.dob) else "";
    var state := if c.state != -1 then ToUpper(Cell(cols, c.state)) else "";
    assert state == ToUpper(Field(cols, c.state)) by {
      if c.state == -1 {
        assert ToUpper("") == "";
      }
    }
    var status := StatusOf(if c.status != -1 then Cell(cols, c.status) else "");
    var notes := if c.notes != -1 then Cell(cols, c.notes) else "";
    var vmCount := 0;
    if status == "1x VM" { vmCount := 1; }
    if status == "2x VM" { vmCount := 2; }
    if status == "3x VM" { vmCount := 3; }
    assert vmCount == VmCountOf(status);
    var age := ParseAge(dob, today);
    return Some(Lead(id, name, phone, dob, age, state, status, notes, vmCount));
  }

  /**
   * What line j yields is `outs[j]`. The trigger keeps the line parser's definition
   * out of the loop's proof: the loop only moves `outs[i]` around.
   */
  predicate Yields(lines: seq<string>, delim: char, c: Columns, today: LocalDate, outs: seq<Option<Lead>>)
  {
    |outs| == |lines|
    && forall j {:trigger LeadOfLine(lines[j], delim, c, j, today)} | 1 <= j < |lines| ::
         outs[j] == LeadOfLine(lines[j], delim, c, j, today)
  }

  /** One pass of the loop body on line `i`, named by what it yields. */
  method ParseLineAt(lines: seq<string>, i: int, delim: char, c: Columns, today: LocalDate, ghost outs: seq<Option<Lead>>)
    returns (lead: Option<Lead>)
    requires 1 <= i < |lines| && Yields(lines, delim, c, today, outs)
    ensures lead == outs[i]
  {
    lead := ParseLine(lines[i], delim, c, i, today);
  }

  lemma OutcomesYield(lines: seq<string>, delim: char, c: Columns, today: LocalDate)
    ensures Yields(lines, delim, c, today, Outcomes(lines, delim, c, today))
  {
    OutcomesAt(lines, delim, c, today);
  }

  /** `parseCSV`'s loop over the data lines 1.., pushing a lead for every usable row. */
  method ParseLines(lines: seq<string>, delim: char, c: Columns, today: LocalDate, ghost outs: seq<Option<Lead>>)
    returns (leads: seq<Lead>)
    requires |lines| >= 1 && Yields(lines, delim, c, today, outs)
    ensures leads == Collect(outs, |lines|)
  {
    leads := [];
    var i := 1;
    while i < |lines|
      invariant 1 <= i <= |lines|
      invariant leads == Collect(outs, i)
    {
      var lead := ParseLineAt(lines, i, delim, c, today, outs);
      if lead.Some? {
        leads := leads + [lead.value];
      }
      i := i + 1;
    }
  }

  /** `parseCSV`: no leads without a data line or without name and phone columns. */
  method ParseCsv(text: string, today: LocalDate) returns (leads: seq<Lead>)
    ensures leads == Csv(text, today)
  {
    var lines := NonBlank(SplitLines(text));
    if |lines| < 2 {
      return [];
    }
    var delim := Delimiter(lines[0]);
    var headers := Headers(lines[0], delim);
    var c := ColumnsOf(headers);
    if c.name == -1 || c.phone == -1 {
      return [];
    }
    OutcomesYield(lines, delim, c, today);
    leads := ParseLines(lines, delim, c, today, Outcomes(lines, delim, c, today));
  }

  // ---------------------------------------------------------------- properties

  /** The ids of a list of leads. */
  function IdsOf(r: seq<Lead>): set<int>
  {
    set l | l in r :: l.id
  }

  /** What every line yields carries its line's position as id. */
  predicate OutcomesNumbered(outs: seq<Option<Lead>>)
  {
    forall i | 0 <= i < |outs| :: outs[i].Some? ==> outs[i].value.id == i
  }

  /** What every line yields is a well-formed lead carrying its line's position as id. */
  predicate OutcomesOk(outs: seq<Option<Lead>>)
  {
    OutcomesNumbered(outs) && forall i | 0 <= i < |outs| :: outs[i].Some? ==> ParsedLeadOk(outs[i].value)
  }

  lemma OutcomesOfLinesOk(lines: seq<string>, delim: char, c: Columns, today: LocalDate)
    ensures OutcomesOk(Outcomes(lines, delim, c, today))
  {
    var outs := Outcomes(lines, delim, c, today);
    forall i | 0 <= i < |outs| && outs[i].Some?
      ensures ParsedLeadOk(outs[i].value) && outs[i].value.id == i
    {
      assert outs[i] == LeadOfLine(lines[i], delim, c, i, today);
      LeadOfLineOk(lines[i], delim, c, i, today);
    }
  }

  /** Collected leads are well-formed, with ids among 1..k-1 strictly increasing. */
  lemma {:induction false} CollectFacts(outs: seq<Option<Lead>>, k: int)
    requires k <= |outs| && OutcomesOk(outs)
    ensures forall j | 0 <= j < |Collect(outs, k)| :: ParsedLeadOk(Collect(outs, k)[j]) && 1 <= Collect(outs, k)[j].id < k
    ensures forall i, j | 0 <= i < j < |Collect(outs, k)| :: Collect(outs, k)[i].id < Collect(outs, k)[j].id
    decreases k
  {
    if k > 1 {
      CollectFacts(outs, k - 1);
      var prev := Collect(outs, k - 1);
      var o := outs[k - 1];
      var r := Collect(outs, k);
      assert r == prev + OptionToSeq(o);
      forall j | 0 <= j < |r|
        ensures ParsedLeadOk(r[j]) && 1 <= r[j].id < k
      {
        if j >= |prev| {
          assert r[j] == o.value;
        } else {
          assert r[j] == prev[j];
        }
      }
    }
  }

  /** Line `line` (1 <= line < k) is represented among the collected leads exactly when it yields a lead. */
  lemma {:induction false} CollectIds(outs: seq<Option<Lead>>, k: int)
    requires k <= |outs| && OutcomesNumbered(outs)
    ensures forall line | 1 <= line < k :: line in IdsOf(Collect(outs, k)) <==> outs[line].Some?
    ensures forall x | x in IdsOf(Collect(outs, k)) :: 1 <= x < k
    decreases k
  {
    if k > 1 {
      CollectIds(outs, k - 1);
      var prev := Collect(outs, k - 1);
      var o := outs[k - 1];
      var r := Collect(outs, k);
      assert r == prev + OptionToSeq(o);
      assert IdsOf(r) == IdsOf(prev) + IdsOf(OptionToSeq(o));
      assert IdsOf(OptionToSeq(o)) == if o.Some? then {k - 1} else {};
    }
  }

  /** The lines `parseCSV` reads after dropping blank ones. */
  function Lines(text: string): seq<string>
  {
    NonBlank(SplitLines(text))
  }

  /** Some header (of a text with at least one line) contains `p`. */
  predicate HasHeader(text: string, p: string)
  {
    var lines := Lines(text);
    |lines| >= 1 && exists j | 0 <= j < |Headers(lines[0], Delimiter(lines[0]))| :: Contains(Headers(lines[0], Delimiter(lines[0]))[j], p)
  }

  /** Fewer than two non-blank lines, or no header naming "name" or "phone", gives no leads at all. */
  lemma CsvEmptyCases(text: string, today: LocalDate)
    ensures |Lines(text)| < 2 ==> Csv(text, today) == []
    ensures !HasHeader(text, "name") || !HasHeader(text, "phone") ==> Csv(text, today) == []
  {
  }

  /**
   * Parsed leads are well-formed, with ids from 1 that strictly increase, so no two
   * share an id.
   */
  lemma CsvFacts(text: string, today: LocalDate)
    ensures forall j | 0 <= j < |Csv(text, today)| :: ParsedLeadOk(Csv(text, today)[j]) && Csv(text, today)[j].id >= 1
    ensures forall i, j | 0 <= i < j < |Csv(text, today)| :: Csv(text, today)[i].id < Csv(text, today)[j].id
  {
    var lines := Lines(text);
    if |lines| >= 2 {
      var delim := Delimiter(lines[0]);
      var c := ColumnsOf(Headers(lines[0], delim));
      OutcomesOfLinesOk(lines, delim, c, today);
      CollectFacts(Outcomes(lines, delim, c, today), |lines|);
    }
  }

  /** The data lines that yield a lead are exactly those whose number is the id of a collected lead. */
  lemma KeptLines(lines: seq<string>, delim: char, c: Columns, today: LocalDate)
    ensures forall line | 1 <= line < |lines| ::
      line in IdsOf(Collect(Outcomes(lines, delim, c, today), |lines|)) <==> LeadOfLine(lines[line], delim, c, line, today).Some?
  {
    OutcomesOfLinesOk(lines, delim, c, today);
    OutcomesAt(lines, delim, c, today);
    CollectIds(Outcomes(lines, delim, c, today), |lines|);
  }

  /** With both columns present, a data line's number is a lead id exactly when that line yields a lead. */
  lemma CsvKeptLines(text: string, today: LocalDate)
    ensures HasHeader(text, "name") && HasHeader(text, "phone") && |Lines(text)| >= 2 ==>
      var lines := Lines(text);
      var delim := Delimiter(lines[0]);
      var c := ColumnsOf(Headers(lines[0], delim));
      forall line | 1 <= line < |lines| ::
        line in IdsOf(Csv(text, today)) <==> LeadOfLine(lines[line], delim, c, line, today).Some?
  {
    var lines := Lines(text);
    if |lines| >= 2 {
      var delim := Delimiter(lines[0]);
      KeptLines(lines, delim, ColumnsOf(Headers(lines[0], delim)), today);
    }
  }

  /** The leads' state is already upper-case. */
  lemma ToUpperIdempotent(s: string)
    ensures ToUpper(ToUpper(s)) == ToUpper(s)
  {
  }

  // --------------------------------------------------------------- demo leads

  /** `l.status.includes("VM") ? parseInt(l.status[0]) || 0 : 0`. */
  function DemoVmCount(status: string): int
  {
    if Contains(status, "VM") then
      (match ParseIntAuto([status[0]]) case Some(n) => n case None => 0)
    else 0
  }

  /** On every known status the demo rule and the parser's rule give the same voicemail count. */
  lemma DemoVmCountAgrees(status: string)
    requires status in StatusStyles
    ensures DemoVmCount(status) == VmCountOf(status)
  {
    if status == "1x VM" || status == "2x VM" || status == "3x VM" {
      assert status[3..5] == "VM" by {
        if status == "1x VM" {} else if status == "2x VM" {} else {}
      }
      ContainsAt(status, "VM", 3);
      ParseIntAutoDigits([status[0]]);
    } else {
      assert 'V' !in status;
      NoVmWithoutV(status);
    }
  }

  lemma {:induction false} NoVmWithoutV(s: string)
    requires 'V' !in s
    ensures !Contains(s, "VM")
  {
    if s != [] {
      assert s[0] != 'V';
      NoVmWithoutV(s[1..]);
    }
  }

  /** `buildDemoLeads()`: the demo rows numbered from 1, phones cleaned, ages computed for `today`. */
  function BuildDemoLeads(today: LocalDate): (r: seq<Lead>)
    ensures |r| == |DemoLeadsRaw|
    ensures forall i | 0 <= i < |r| :: r[i].id == i + 1 && r[i].status == DemoLeadsRaw[i].status
  {
    seq(|DemoLeadsRaw|, i requires 0 <= i < |DemoLeadsRaw| =>
      var l := DemoLeadsRaw[i];
      Lead(i + 1, l.name, CleanPhone(l.phone), l.dob, Age(l.dob, today), l.state, l.status, l.notes,
           DemoVmCount(l.status)))
  }

  /** Demo leads look like parsed ones: known status, voicemail count in step, ten-digit phone kept as is. */
  lemma DemoLeadsOk(today: LocalDate)
    ensures forall i | 0 <= i < |BuildDemoLeads(today)| ::
      var l := BuildDemoLeads(today)[i];
      l.vmCount == VmCountOf(l.status) && l.phone == DemoLeadsRaw[i].phone && l.status in StatusStyles
  {
    DemoStatusesKnown();
    DemoPhonesTenDigits();
    forall i | 0 <= i < |DemoLeadsRaw|
      ensures DemoVmCount(DemoLeadsRaw[i].status) == VmCountOf(DemoLeadsRaw[i].status)
      ensures CleanPhone(DemoLeadsRaw[i].phone) == DemoLeadsRaw[i].phone
    {
      DemoVmCountAgrees(DemoLeadsRaw[i].status);
    }
  }

  // --------------------------------------------------------- server records

  /** `(v as string) || ""`, for values that are strings. */
  function StrOr(v: Value, d: string): string
  {
    if v.Str? && v.s != "" then v.s else d
  }

  /** `(v as number) || d`, for values that are numbers. */
  function NumOr(v: Value, d: int): int
  {
    if v.Num? && v.n != 0 then v.n else d
  }

  /** `(v as number | null) ?? null`: only null and undefined become null; 0 stays. */
  function AgeOf(v: Value): Option<int>
  {
    if v.Num? then Some(v.n) else None
  }

  /** One record of `mapServerLeads`, at position `i`. */
  function ServerLead(l: map<string, Value>, i: int): Lead
  {
    Lead(NumOr(Get(l, "id"), i + 1), StrOr(Get(l, "name"), ""), StrOr(Get(l, "phone"), ""),
         StrOr(Get(l, "dob"), ""), AgeOf(Get(l, "age")), StrOr(Get(l, "state"), ""),
         StrOr(Get(l, "status"), "NEW LEAD"), StrOr(Get(l, "notes"), ""), NumOr(Get(l, "vm_count"), 0))
  }

  /** `mapServerLeads(raw)`. */
  function MapServerLeads(raw: seq<map<string, Value>>): (r: seq<Lead>)
    ensures |r| == |raw|
  {
    seq(|raw|, i requires 0 <= i < |raw| => ServerLead(raw[i], i))
  }

  /** Missing keys get defaults: id from the position, "NEW LEAD", vmCount 0, "" elsewhere; an age of 0 is kept. */
  lemma MapServerLeadsDefaults(raw: seq<map<string, Value>>, i: int)
    requires 0 <= i < |raw|
    ensures var l := MapServerLeads(raw)[i];
      && (!Truthy(Get(raw[i], "id")) ==> l.id == i + 1)
      && (!Truthy(Get(raw[i], "status")) ==> l.status == "NEW LEAD")
      && (!Truthy(Get(raw[i], "vm_count")) ==> l.vmCount == 0)
      && (!Truthy(Get(raw[i], "name")) ==> l.name == "")
      && (Get(raw[i], "age") == Num(0) ==> l.age == Some(0))
      && (Get(raw[i], "age") in {Null, Undefined} ==> l.age == None)
      && (l.status != "")
  {
  }

  /** An empty record becomes an all-default lead. */
  lemma MapServerLeadsEmpty(i: int)
    ensures ServerLead(map[], i) == Lead(i + 1, "", "", "", None, "", "NEW LEAD", "", 0)
  {
  }
}
