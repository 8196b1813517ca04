/**
 * The call script: filling the placeholders and opening sections while a lead is
 * on screen (app/dashboard/components/ScriptView.tsx), and the section list
 * editor (app/dashboard/components/ScriptSetupView.tsx). The editor's updaters
 * map the previous list to the next one; a new section's `crypto.randomUUID()`
 * is passed in as `freshId`.
 */
module Script {
  import opened Js
  import opened Types

  /** What a placeholder becomes when there is nothing to put in. */
  const Missing: string := "___"

  // ------------------------------------------------------------- ScriptView

  /** `currentLead.name.split(" ")[0]`, or "___" without a lead. */
  function FirstName(lead: Option<Lead>): string
  {
    if lead.None? then Missing else Split(lead.value.name, ' ')[0]
  }

  /** `currentLead?.dob || "___"`. */
  function LeadDob(lead: Option<Lead>): string
  {
    if lead.Some? && lead.value.dob != "" then lead.value.dob else Missing
  }

  /** `currentLead?.state || "___"`. */
  function LeadState(lead: Option<Lead>): string
  {
    if lead.Some? && lead.value.state != "" then lead.value.state else Missing
  }

  /**
   * The first name is the name up to its first space; dob and state fall back to
   * "___" exactly when there is no lead or the field is empty.
   */
  lemma LeadVarsFacts(lead: Option<Lead>)
    ensures lead.None? ==> FirstName(lead) == Missing
    ensures lead.Some? ==> StartsWith(lead.value.name, FirstName(lead)) && ' ' !in FirstName(lead)
    ensures lead.Some? && |FirstName(lead)| < |lead.value.name| ==> lead.value.name[|FirstName(lead)|] == ' '
    ensures LeadDob(lead) == Missing <==> lead.None? || lead.value.dob in {"", Missing}
    ensures LeadState(lead) == Missing <==> lead.None? || lead.value.state in {"", Missing}
  {
    if lead.Some? {
      SplitFirst(lead.value.name, ' ');
      SplitPiecesFree(lead.value.name, ' ');
    }
  }

  /** `s.replace(/p/g, r)`: every occurrence of `p`, scanning left to right, becomes `r`. */
  function ReplaceAll(s: string, p: string, r: string): string
    requires p != []
    decreases |s|
  {
    if |s| < |p| then s
    else if s[..|p|] == p then r + ReplaceAll(s[|p|..], p, r)
    else [s[0]] + ReplaceAll(s[1..], p, r)
  }

  /** Text without the pattern comes back unchanged. */
  lemma {:induction false} ReplaceAbsent(s: string, p: string, r: string)
    requires p != [] && !Contains(s, p)
    ensures ReplaceAll(s, p, r) == s
    decreases |s|
  {
    if |s| >= |p| {
      ReplaceAbsent(s[1..], p, r);
    }
  }

  /** Replacing the pattern by itself changes nothing. */
  lemma {:induction false} ReplaceBySelf(s: string, p: string)
    requires p != []
    ensures ReplaceAll(s, p, p) == s
    decreases |s|
  {
    if |s| >= |p| {
      if s[..|p|] == p {
        ReplaceBySelf(s[|p|..], p);
        assert s == p + s[|p|..];
      } else {
        ReplaceBySelf(s[1..], p);
        assert s == [s[0]] + s[1..];
      }
    }
  }

  /** Text in which the pattern's first character never occurs is copied through. */
  lemma {:induction false} ReplaceSkips(w: string, t: string, p: string, r: string)
    requires p != [] && p[0] !in w
    ensures ReplaceAll(w + t, p, r) == w + ReplaceAll(t, p, r)
    decreases |w|
  {
    if w != [] {
      var s := w + t;
      if |s| < |p| {
        assert !Contains(t, p) by {
          if Contains(t, p) {
            var k := ContainsWitness(t, p);
          }
        }
        ReplaceAbsent(t, p, r);
      } else {
        assert s[0] == w[0] && s[..|p|][0] != p[0];
        assert s[1..] == w[1..] + t;
        ReplaceSkips(w[1..], t, p, r);
      }
    } else {
      assert w + t == t;
    }
  }

  /** The pieces `ws` with `sep` between each two: a template with a placeholder. */
  function Interleave(ws: seq<string>, sep: string): string
    requires |ws| >= 1
  {
    if |ws| == 1 then ws[0] else ws[0] + sep + Interleave(ws[1..], sep)
  }

  /** No piece contains the character `c`. */
  predicate PiecesFree(ws: seq<string>, c: char)
  {
    forall i | 0 <= i < |ws| :: c !in ws[i]
  }

  /**
   * A template whose text pieces never contain the placeholder's first character
   * gets exactly one `r` wherever it had the placeholder, and nothing else changes.
   */
  lemma {:induction false} ReplaceTemplate(ws: seq<string>, p: string, r: string)
    requires |ws| >= 1 && p != [] && PiecesFree(ws, p[0])
    ensures ReplaceAll(Interleave(ws, p), p, r) == Interleave(ws, r)
  {
    if |ws| == 1 {
      ReplaceSkips(ws[0], [], p, r);
      assert ws[0] + [] == ws[0];
    } else {
      var rest := Interleave(ws[1..], p);
      ReplaceSkips(ws[0], p + rest, p, r);
      assert (p + rest)[..|p|] == p && (p + rest)[|p|..] == rest;
      ReplaceTemplate(ws[1..], p, r);
      assert ws[0] + p + rest == ws[0] + (p + rest);
    }
  }

  /** A text without `c` does not contain a pattern that starts with `c`. */
  lemma FreeNotContains(s: string, p: string)
    requires p != [] && p[0] !in s
    ensures !Contains(s, p)
  {
    if Contains(s, p) {
      var k := ContainsWitness(s, p);
    }
  }

  /** Interleaving pieces and a separator that all lack `c` gives a text without `c`. */
  lemma {:induction false} InterleaveFree(ws: seq<string>, sep: string, c: char)
    requires |ws| >= 1 && PiecesFree(ws, c) && c !in sep
    ensures c !in Interleave(ws, sep)
  {
    if |ws| > 1 {
      InterleaveFree(ws[1..], sep, c);
    }
  }

  /** `fillVars`: every {firstName}, then every {dob}, then every {state}. */
  function FillVars(text: string, lead: Option<Lead>): string
  {
    ReplaceAll(ReplaceAll(ReplaceAll(text, "{firstName}", FirstName(lead)), "{dob}", LeadDob(lead)), "{state}", LeadState(lead))
  }

  /** Text holding none of the three placeholders is shown as written. */
  lemma FillVarsNoPlaceholders(text: string, lead: Option<Lead>)
    requires !Contains(text, "{firstName}") && !Contains(text, "{dob}") && !Contains(text, "{state}")
    ensures FillVars(text, lead) == text
  {
    ReplaceAbsent(text, "{firstName}", FirstName(lead));
    ReplaceAbsent(text, "{dob}", LeadDob(lead));
    ReplaceAbsent(text, "{state}", LeadState(lead));
  }

  /**
   * A script line made of brace-free text around {firstName} placeholders shows
   * the lead's first name in each of them, provided the name holds no brace.
   */
  lemma FillVarsFirstName(ws: seq<string>, lead: Option<Lead>)
    requires |ws| >= 1 && PiecesFree(ws, '{') && '{' !in FirstName(lead)
    ensures FillVars(Interleave(ws, "{firstName}"), lead) == Interleave(ws, FirstName(lead))
  {
    var t := Interleave(ws, FirstName(lead));
    ReplaceTemplate(ws, "{firstName}", FirstName(lead));
    InterleaveFree(ws, FirstName(lead), '{');
    FreeNotContains(t, "{dob}");
    ReplaceAbsent(t, "{dob}", LeadDob(lead));
    FreeNotContains(t, "{state}");
    ReplaceAbsent(t, "{state}", LeadState(lead));
  }

  /** The replacements run in order: a first name that reads "{dob}" is filled with the birth date. */
  lemma FillVarsInOrder(lead: Lead)
    requires lead.name == "{dob}" && lead.dob == "1/2/1960"
    ensures FillVars("{firstName}", Some(lead)) == "1/2/1960"
  {
    assert FirstName(Some(lead)) == "{dob}" by {
      assert ' ' !in lead.name;
      SplitNoDelim(lead.name, ' ');
    }
    ReplaceWhole("{firstName}", "{dob}");
    ReplaceWhole("{dob}", "1/2/1960");
    FreeNotContains("1/2/1960", "{state}");
    ReplaceAbsent("1/2/1960", "{state}", LeadState(Some(lead)));
  }

  /** A text that is just the pattern becomes just the replacement. */
  lemma ReplaceWhole(p: string, r: string)
    requires p != []
    ensures ReplaceAll(p, p, r) == r
  {
    assert p[..|p|] == p && p[|p|..] == [];
    assert ReplaceAll([], p, r) == [];
  }

  /** `toggleSection`: a copy of the open set with `id` added or removed. */
  function Toggle(open: set<string>, id: string): (r: set<string>)
    ensures id in r <==> id !in open
    ensures forall x | x != id :: x in r <==> x in open
  {
    if id in open then open - {id} else open + {id}
  }

  /** Toggling the same section twice gives back the open set. */
  lemma ToggleTwice(open: set<string>, id: string)
    ensures Toggle(Toggle(open, id), id) == open
  {
  }

  /** The sections open when the script is first shown. */
  function InitialOpen(sections: seq<ScriptSection>): (r: set<string>)
    ensures sections == [] ==> r == {}
    ensures sections != [] ==> r == {sections[0].id}
  {
    if |sections| > 0 then {sections[0].id} else {}
  }

  // -------------------------------------------------------- ScriptSetupView

  /** The two editable fields of a section. */
  datatype Field = Title | Body

  /** `addSection`: an empty section at the end. */
  function AddSection(prev: seq<ScriptSection>, freshId: string): (r: seq<ScriptSection>)
    ensures |r| == |prev| + 1 && r[..|prev|] == prev
    ensures r[|prev|] == ScriptSection(freshId, "", "")
  {
    prev + [ScriptSection(freshId, "", "")]
  }

  /** `updateSection`: set one field of the sections with the id. */
  function UpdateSection(prev: seq<ScriptSection>, id: string, field: Field, value: string): (r: seq<ScriptSection>)
    ensures |r| == |prev|
  {
    seq(|prev|, i requires 0 <= i < |prev| =>
      if prev[i].id != id then prev[i]
      else if field == Title then prev[i].(title := value)
      else prev[i].(body := value))
  }

  /** Only the named field of the matching sections changes; ids and order stay. */
  lemma UpdateSectionFacts(prev: seq<ScriptSection>, id: string, field: Field, value: string)
    ensures var r := UpdateSection(prev, id, field, value);
      forall i | 0 <= i < |prev| ::
        && r[i].id == prev[i].id
        && (prev[i].id != id ==> r[i] == prev[i])
        && (prev[i].id == id && field == Title ==> r[i].title == value && r[i].body == prev[i].body)
        && (prev[i].id == id && field == Body ==> r[i].body == value && r[i].title == prev[i].title)
  {
  }

  /** A second edit of the same field replaces the first. */
  lemma UpdateSectionOverwrites(prev: seq<ScriptSection>, id: string, field: Field, v1: string, v2: string)
    ensures UpdateSection(UpdateSection(prev, id, field, v1), id, field, v2) == UpdateSection(prev, id, field, v2)
  {
  }

  /** `removeSection`: drop the sections with the id. */
  function RemoveSection(prev: seq<ScriptSection>, id: string): (r: seq<ScriptSection>)
    ensures |r| <= |prev|
    ensures forall i | 0 <= i < |r| :: r[i].id != id
  {
    if prev == [] then []
    else if prev[0].id == id then RemoveSection(prev[1..], id)
    else [prev[0]] + RemoveSection(prev[1..], id)
  }

  /** Exactly the sections with another id remain. */
  lemma {:induction false} RemoveSectionMembers(prev: seq<ScriptSection>, id: string)
    ensures forall s :: s in RemoveSection(prev, id) <==> s in prev && s.id != id
  {
    if prev != [] {
      RemoveSectionMembers(prev[1..], id);
      assert forall s :: s in prev <==> s == prev[0] || s in prev[1..];
    }
  }

  /** Removal keeps the order: it works piece by piece over a concatenation. */
  lemma {:induction false} RemoveSectionConcat(a: seq<ScriptSection>, b: seq<ScriptSection>, id: string)
    ensures RemoveSection(a + b, id) == RemoveSection(a, id) + RemoveSection(b, id)
  {
    if a != [] {
      RemoveSectionConcat(a[1..], b, id);
      assert (a + b)[1..] == a[1..] + b;
    } else {
      assert a + b == b;
    }
  }

  /** With no section carrying the id, removal changes nothing. */
  lemma {:induction false} RemoveSectionAbsent(prev: seq<ScriptSection>, id: string)
    requires forall i | 0 <= i < |prev| :: prev[i].id != id
    ensures RemoveSection(prev, id) == prev
  {
    if prev != [] {
      RemoveSectionAbsent(prev[1..], id);
      assert [prev[0]] + prev[1..] == prev;
    }
  }

  /** Adding a section with a fresh id and removing it again gives back the list. */
  lemma RemoveUndoesAdd(prev: seq<ScriptSection>, freshId: string)
    requires forall i | 0 <= i < |prev| :: prev[i].id != freshId
    ensures RemoveSection(AddSection(prev, freshId), freshId) == prev
  {
    RemoveSectionConcat(prev, [ScriptSection(freshId, "", "")], freshId);
    RemoveSectionAbsent(prev, freshId);
  }

  /**
   * `moveSection`: swap the section at `idx` with its neighbour in direction `dir`;
   * a neighbour off either end leaves the list as it was.
   */
  function MoveSection(prev: seq<ScriptSection>, idx: int, dir: int): (r: seq<ScriptSection>)
    requires 0 <= idx < |prev| && (dir == -1 || dir == 1)
    ensures |r| == |prev| && multiset(r) == multiset(prev)
  {
    var target := idx + dir;
    if target < 0 || target >= |prev| then prev
    else prev[idx := prev[target]][target := prev[idx]]
  }

  /** The two sections trade places and every other one stays where it was. */
  lemma MoveSectionSwaps(prev: seq<ScriptSection>, idx: int, dir: int)
    requires 0 <= idx < |prev| && (dir == -1 || dir == 1)
    ensures var r := MoveSection(prev, idx, dir);
      && (0 <= idx + dir < |prev| ==> r[idx] == prev[idx + dir] && r[idx + dir] == prev[idx])
      && (forall i | 0 <= i < |prev| && i != idx && i != idx + dir :: r[i] == prev[i])
      && (idx + dir < 0 || idx + dir >= |prev| ==> r == prev)
  {
  }

  /** Moving a section down and then back up restores the list. */
  lemma MoveSectionUndo(prev: seq<ScriptSection>, idx: int)
    requires 0 <= idx && idx + 1 < |prev|
    ensures MoveSection(MoveSection(prev, idx, 1), idx + 1, -1) == prev
  {
  }

  /** `handlePasteScript`: blank text is ignored, anything else becomes the one section. */
  function PasteScript(prev: seq<ScriptSection>, text: string, freshId: string): seq<ScriptSection>
  {
    var t := Trim(text);
    if t == [] then prev else [ScriptSection(freshId, "FULL SCRIPT", t)]
  }

  /**
   * White space alone leaves the sections; other text replaces them all by a single
   * FULL SCRIPT section whose body is the text without surrounding white space.
   */
  lemma PasteScriptFacts(prev: seq<ScriptSection>, text: string, freshId: string)
    ensures Blank(text) ==> PasteScript(prev, text, freshId) == prev
    ensures !Blank(text) ==> exists body ::
      && PasteScript(prev, text, freshId) == [ScriptSection(freshId, "FULL SCRIPT", body)]
      && body == Trim(text) && body != []
      && !IsSpace(body[0]) && !IsSpace(body[|body| - 1])
  {
    TrimEmptyIffBlank(text);
    var s := TrimStart(text);
    TrimEndPrefix(s);
  }
}
