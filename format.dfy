/**
 * The small formatters of app/dashboard/lib/utils.ts: age from a birth
 * date (`parseAge`, 68-80), initials (`getInitials`, 82-84), the avatar
 * colour (`getAvatarColor`, 86-90) and call durations (`formatDuration`, 92-96).
 */
module Format {
  import opened Js
  import opened Constants

  /** A calendar day as `getFullYear()`, `getMonth() + 1`, `getDate()` report it. */
  datatype LocalDate = LocalDate(year: int, month: int, day: int)

  /** (y1, m1, d1) comes no later than (y2, m2, d2). */
  predicate DateLe(y1: int, m1: int, d1: int, y2: int, m2: int, d2: int)
  {
    y1 < y2 || (y1 == y2 && (m1 < m2 || (m1 == m2 && d1 <= d2)))
  }

  /** The `[m, d, y]` parts of a birth date, or None when `parseAge` gives up before building a date. */
  function BirthParts(dob: string): (r: Option<(int, int, int)>)
    ensures r.Some? ==> r.value.0 > 0 && r.value.1 > 0 && r.value.2 > 0
  {
    if dob == "" then None
    else
      var parts := Split(dob, '/');
      if |parts| != 3 then None
      else
        var m := ToNumber(parts[0]);
        var d := ToNumber(parts[1]);
        var y := ToNumber(parts[2]);
        if m.None? || d.None? || y.None? || m.value == 0 || d.value == 0 || y.value == 0 then None
        else Some((m.value, d.value, y.value))
  }

  /** `new Date(y, ...)` reads years 0..99 as 1900..1999. */
  function FullYear(y: int): int
  {
    if 0 <= y <= 99 then 1900 + y else y
  }

  /** What `parseAge(dob)` returns on `today`. */
  function Age(dob: string, today: LocalDate): Option<int>
  {
    match BirthParts(dob)
    case None => None
    case Some((m, d, y)) =>
      var years := today.year - FullYear(y);
      Some(if today.month < m || (today.month == m && today.day < d) then years - 1 else years)
  }

  /** `parseAge`: the year difference, less one while this year's birthday is still ahead. */
  method ParseAge(dob: string, today: LocalDate) returns (age: Option<int>)
    ensures age == Age(dob, today)
  {
    var parts := BirthParts(dob);
    if parts.None? {
      return None;
    }
    var (m, d, y) := parts.value;
    var a := today.year - FullYear(y);
    var md := today.month - m;
    if md < 0 || (md == 0 && today.day < d) {
      a := a - 1;
    }
    return Some(a);
  }

  /** The age is the number of birthdays completed by today: the last one is past, the next one is not. */
  lemma AgeIsCompletedYears(dob: string, today: LocalDate)
    requires Age(dob, today).Some?
    ensures var (m, d, y) := BirthParts(dob).value;
      var a := Age(dob, today).value;
      DateLe(FullYear(y) + a, m, d, today.year, today.month, today.day)
      && !DateLe(FullYear(y) + a + 1, m, d, today.year, today.month, today.day)
  {
  }

  lemma {:induction false} SplitBirthDate(m: string, d: string, y: string)
    requires '/' !in m && '/' !in d && '/' !in y
    ensures Split(m + "/" + d + "/" + y, '/') == [m, d, y]
  {
    assert m + "/" + d + "/" + y == m + ['/'] + (d + ['/'] + y);
    SplitAtFirst(m, '/', d + ['/'] + y);
    SplitAtFirst(d, '/', y);
    SplitNoDelim(y, '/');
  }

  /** A birth date written `MM/DD/YYYY` in digits has those three numbers as its parts. */
  lemma BirthPartsOfDigits(m: string, d: string, y: string)
    requires m != [] && d != [] && y != [] && AllDigits(m) && AllDigits(d) && AllDigits(y)
    requires DigitsValue(m) > 0 && DigitsValue(d) > 0 && DigitsValue(y) > 0
    ensures BirthParts(m + "/" + d + "/" + y) == Some((DigitsValue(m), DigitsValue(d), DigitsValue(y)))
  {
    var dob := m + "/" + d + "/" + y;
    assert dob != "";
    SplitBirthDate(m, d, y);
    var parts := Split(dob, '/');
    assert parts[0] == m && parts[1] == d && parts[2] == y;
    ToNumberDigits(m);
    ToNumberDigits(d);
    ToNumberDigits(y);
  }

  /** A lead born on 15 March 1952 is 74 on 15 October 2026, and was 73 the day before that birthday. */
  lemma AgeExample()
    ensures Age("03/15/1952", LocalDate(2026, 10, 15)) == Some(74)
    ensures Age("03/15/1952", LocalDate(2026, 3, 14)) == Some(73)
  {
    assert DigitsValue("03") == 3 && DigitsValue("15") == 15;
    assert "1952"[..3] == "195" && "195"[..2] == "19" && "19"[..1] == "1";
    assert DigitsValue("195") == 195;
    assert DigitsValue("1952") == 1952;
    assert "03" + "/" + "15" + "/" + "1952" == "03/15/1952";
    BirthPartsOfDigits("03", "15", "1952");
    assert BirthParts("03/15/1952") == Some((3, 15, 1952));
  }

  /** Two parts, or a zero part, give no age. */
  lemma AgeRejects(today: LocalDate)
    ensures Age("03/15", today) == None
    ensures Age("00/15/1952", today) == None
    ensures Age("", today) == None
  {
    assert "03/15" == "03" + ['/'] + "15";
    SplitAtFirst("03", '/', "15");
    SplitNoDelim("15", '/');
    assert |Split("03/15", '/')| == 2;
    assert "00" + "/" + "15" + "/" + "1952" == "00/15/1952";
    SplitBirthDate("00", "15", "1952");
    ToNumberDigits("00");
    assert DigitsValue("00") == 0;
  }

  /** The first character of every non-empty word. */
  function FirstLetters(words: seq<string>): (r: string)
    ensures |r| <= |words|
  {
    if words == [] then []
    else (if words[0] == [] then [] else [words[0][0]]) + FirstLetters(words[1..])
  }

  /** `getInitials(name)`: the first two word initials, upper-cased. */
  function GetInitials(name: string): (r: string)
    ensures |r| <= 2
  {
    var all := ToUpper(FirstLetters(Split(name, ' ')));
    if |all| <= 2 then all else all[..2]
  }

  /** "first last" gives the two upper-cased initials; a single word gives one. */
  lemma InitialsOfTwoWords(first: string, last: string)
    requires first != [] && last != [] && ' ' !in first && ' ' !in last
    ensures GetInitials(first + " " + last) == [UpperChar(first[0]), UpperChar(last[0])]
    ensures GetInitials(first) == [UpperChar(first[0])]
  {
    assert first + " " + last == first + [' '] + last;
    SplitAtFirst(first, ' ', last);
    SplitNoDelim(last, ' ');
    SplitNoDelim(first, ' ');
    assert [first] + [last] == [first, last];
    assert [first, last][1..] == [last];
    assert FirstLetters([first, last]) == [first[0], last[0]];
    assert FirstLetters([first]) == [first[0]];
  }

  /** Initials distribute over a split of the word list. */
  lemma {:induction false} FirstLettersConcat(a: seq<string>, b: seq<string>)
    ensures FirstLetters(a + b) == FirstLetters(a) + FirstLetters(b)
  {
    if a == [] {
      assert a + b == b;
    } else {
      assert (a + b)[0] == a[0];
      assert (a + b)[1..] == a[1..] + b;
      FirstLettersConcat(a[1..], b);
    }
  }

  /** The initials of a name are the upper-cased first two of its word initials. */
  lemma InitialsOfLetters(name: string, x: char, y: char, rest: string)
    requires FirstLetters(Split(name, ' ')) == [x, y] + rest
    ensures GetInitials(name) == [UpperChar(x), UpperChar(y)]
  {
    var u := ToUpper([x, y] + rest);
    assert u[0] == UpperChar(x) && u[1] == UpperChar(y);
    assert u[..2] == [u[0], u[1]];
  }

  /** Empty words, the pieces between repeated spaces, give no initials. */
  lemma {:induction false} FirstLettersOfEmptyWords(ws: seq<string>)
    requires forall k | 0 <= k < |ws| :: ws[k] == []
    ensures FirstLetters(ws) == []
  {
    if ws != [] {
      FirstLettersOfEmptyWords(ws[1..]);
    }
  }

  /**
   * For any name made of space-separated words, empty ones included: the initials
   * are the upper-cased first letters of the first two non-empty words, at positions i and j.
   */
  lemma InitialsOfFirstTwoWords(ws: seq<string>, i: nat, j: nat)
    requires forall k | 0 <= k < |ws| :: ' ' !in ws[k]
    requires i < j < |ws| && ws[i] != [] && ws[j] != []
    requires forall k | 0 <= k < j && k != i :: ws[k] == []
    ensures GetInitials(Join(ws, ' ')) == [UpperChar(ws[i][0]), UpperChar(ws[j][0])]
  {
    SplitJoin(ws, ' ');
    LettersOfTwo(ws, i, j);
    InitialsOfLetters(Join(ws, ' '), ws[i][0], ws[j][0], FirstLetters(ws[j + 1..]));
  }

  /** With empty words before position j except at i, the word initials start with those of words i and j. */
  lemma LettersOfTwo(ws: seq<string>, i: nat, j: nat)
    requires i < j < |ws| && ws[i] != [] && ws[j] != []
    requires forall k | 0 <= k < j && k != i :: ws[k] == []
    ensures FirstLetters(ws) == [ws[i][0], ws[j][0]] + FirstLetters(ws[j + 1..])
  {
    LettersFromStart(ws, i);
    LettersFrom(ws, i + 1, j);
    PrependTwo(FirstLetters(ws), FirstLetters(ws[i + 1..]), FirstLetters(ws[j + 1..]), ws[i][0], ws[j][0]);
  }

  /** Two single-letter prefixes in a row make one two-letter prefix. */
  lemma PrependTwo(whole: string, mid: string, rest: string, a: char, b: char)
    requires whole == [a] + mid && mid == [b] + rest
    ensures whole == [a, b] + rest
  {
  }

  /** With only empty words before position j, the initials start with that of word j. */
  lemma LettersFromStart(ws: seq<string>, j: nat)
    requires j < |ws| && ws[j] != []
    requires forall k | 0 <= k < j :: ws[k] == []
    ensures FirstLetters(ws) == [ws[j][0]] + FirstLetters(ws[j + 1..])
  {
    LettersFrom(ws, 0, j);
    assert ws[0..] == ws;
  }

  /** With only empty words from position s up to position j, the initials from s on start with that of word j. */
  lemma {:induction false} LettersFrom(ws: seq<string>, s: nat, j: nat)
    requires s <= j < |ws| && ws[j] != []
    requires forall k | s <= k < j :: ws[k] == []
    ensures FirstLetters(ws[s..]) == [ws[j][0]] + FirstLetters(ws[j + 1..])
    decreases j - s
  {
    assert ws[s..][1..] == ws[s + 1..];
    if s < j {
      LettersFrom(ws, s + 1, j);
    }
  }

  /** With a single non-empty word, at position i, the initials are its upper-cased first letter; with none, they are empty. */
  lemma InitialsOfOneWord(ws: seq<string>, i: nat)
    requires |ws| >= 1 && forall k | 0 <= k < |ws| :: ' ' !in ws[k]
    requires forall k | 0 <= k < |ws| && k != i :: ws[k] == []
    ensures i < |ws| && ws[i] != [] ==> GetInitials(Join(ws, ' ')) == [UpperChar(ws[i][0])]
    ensures (i >= |ws| || ws[i] == []) ==> GetInitials(Join(ws, ' ')) == []
  {
    SplitJoin(ws, ' ');
    if i < |ws| && ws[i] != [] {
      LettersFromStart(ws, i);
      FirstLettersOfEmptyWords(ws[i + 1..]);
    } else {
      FirstLettersOfEmptyWords(ws);
    }
  }

  /** Extra spaces add no initials. */
  lemma InitialsSkipEmptyWords(name: string)
    requires ' ' !in name && name != []
    ensures GetInitials(" " + name + " ") == [UpperChar(name[0])]
  {
    assert " " + name + " " == [] + [' '] + (name + [' '] + []);
    SplitAtFirst([], ' ', name + [' '] + []);
    SplitAtFirst(name, ' ', []);
    var words := [[], name, []];
    assert Split(" " + name + " ", ' ') == words;
    assert words[1..] == [name, []];
    assert words[1..][1..] == [[]];
    assert FirstLetters([[]]) == [];
    assert FirstLetters([name, []]) == [name[0]];
    assert FirstLetters(words) == [name[0]];
  }

  /** JavaScript's ToInt32: wrap into -2^31 .. 2^31 - 1. */
  function ToInt32(x: int): (r: int)
    ensures -0x8000_0000 <= r < 0x8000_0000
    ensures (r - x) % 0x1_0000_0000 == 0
  {
    var u := x % 0x1_0000_0000;
    if u >= 0x8000_0000 then u - 0x1_0000_0000 else u
  }

  /** One step of the name hash: `h = charCode + ((h << 5) - h)`; the shift wraps to 32 bits, the rest does not. */
  function HashStep(h: int, c: char): int
  {
    c as int + (ToInt32(ToInt32(h) * 32) - h)
  }

  /** The hash of a whole name, character by character from the left. */
  function NameHash(s: string): int
  {
    if s == [] then 0 else HashStep(NameHash(s[..|s| - 1]), s[|s| - 1])
  }

  function Abs(x: int): nat { if x < 0 then -x else x }

  /** `getAvatarColor`: the hash loop, then `AVATAR_COLORS[Math.abs(h) % 8]`. */
  method AvatarColor(name: string) returns (color: string, index: nat)
    ensures index < |AvatarColors| && color == AvatarColors[index]
    ensures index == Abs(NameHash(name)) % |AvatarColors|
  {
    var h := 0;
    var i := 0;
    while i < |name|
      invariant 0 <= i <= |name|
      invariant h == NameHash(name[..i])
    {
      assert name[..i + 1][..i] == name[..i];
      h := HashStep(h, name[i]);
      i := i + 1;
    }
    assert name[..|name|] == name;
    index := Abs(h) % |AvatarColors|;
    color := AvatarColors[index];
  }

  /** `formatDuration(seconds)`: minutes, a colon, and two-digit seconds. */
  function FormatDuration(seconds: nat): string
  {
    NatToString(seconds / 60) + ":" + Pad2(seconds % 60)
  }

  /** Reading `m:ss` back as 60 * m + ss recovers the seconds. */
  lemma FormatDurationRoundTrip(seconds: nat)
    ensures var parts := Split(FormatDuration(seconds), ':');
      |parts| == 2 && AllDigits(parts[0]) && AllDigits(parts[1]) && |parts[1]| == 2
      && DigitsValue(parts[0]) * 60 + DigitsValue(parts[1]) == seconds
  {
    var ms := NatToString(seconds / 60);
    var ss := Pad2(seconds % 60);
    assert ':' !in ms && ':' !in ss;
    assert FormatDuration(seconds) == ms + [':'] + ss;
    SplitAtFirst(ms, ':', ss);
    SplitNoDelim(ss, ':');
    NatToStringRoundTrip(seconds / 60);
    Pad2Value(seconds % 60);
    Pad2Short(seconds % 60);
  }
}
