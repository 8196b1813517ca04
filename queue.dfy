/**
 * Which leads a session dials, and in what order (`startSession`'s filter and
 * sort, app/dashboard/page.tsx:278-299), and the lead list's search and sort
 * (`filteredLeads` and `dialableCount`, app/dashboard/components/ListView.tsx:31-57).
 *
 * Both sorts compare three keys in turn, so each is a stable sort by a key
 * triple compared lexicographically. `Array.prototype.sort` is stable, and a
 * stable sort by a total preorder has only one possible result, which is what
 * `SortBy` (an insertion sort) computes.
 */
module Queue {
  import opened Js
  import opened Types
  import opened Constants
  import opened Calendar
  import opened CallWindow

  // ---------------------------------------------------------------- filtering

  /** `s.filter(p)`. */
  function Filter<T>(s: seq<T>, p: T -> bool): (r: seq<T>)
    ensures |r| <= |s|
  {
    if s == [] then []
    else (if p(s[0]) then [s[0]] else []) + Filter(s[1..], p)
  }

  /** The filter keeps exactly the elements that pass the test. */
  lemma {:induction false} FilterMembers<T>(s: seq<T>, p: T -> bool)
    ensures forall i | 0 <= i < |Filter(s, p)| :: Filter(s, p)[i] in s && p(Filter(s, p)[i])
    ensures forall i | 0 <= i < |s| && p(s[i]) :: s[i] in Filter(s, p)
  {
    if s != [] {
      FilterMembers(s[1..], p);
      var r := Filter(s, p);
      var t := Filter(s[1..], p);
      assert r == (if p(s[0]) then [s[0]] else []) + t;
      forall i | 0 <= i < |s| && p(s[i])
        ensures s[i] in r
      {
        if i > 0 {
          assert s[i] == s[1..][i - 1];
        }
      }
    }
  }

  // ---------------------------------------------------------------- sorting

  /** The three comparison keys, each ordered ascending: smaller comes first. */
  datatype SortKey = SortKey(group: int, score: int, age: int)

  /** Lexicographic order on keys: the comparator returns a value <= 0. */
  predicate KeyLe(a: SortKey, b: SortKey)
  {
    a.group < b.group
    || (a.group == b.group && (a.score < b.score || (a.score == b.score && a.age <= b.age)))
  }

  /** Every earlier element compares no greater than every later one. */
  predicate SortedBy<T>(s: seq<T>, key: T -> SortKey)
  {
    forall i, j | 0 <= i < j < |s| :: KeyLe(key(s[i]), key(s[j]))
  }

  /** Insert `x` into sorted `t` after every element that does not compare greater. */
  function Insert<T>(t: seq<T>, x: T, key: T -> SortKey): seq<T>
  {
    if t == [] then [x]
    else if KeyLe(key(t[|t| - 1]), key(x)) then t + [x]
    else Insert(t[..|t| - 1], x, key) + [t[|t| - 1]]
  }

  /** A stable sort by `key`: elements are inserted one at a time, from the left. */
  function SortBy<T>(s: seq<T>, key: T -> SortKey): seq<T>
  {
    if s == [] then [] else Insert(SortBy(s[..|s| - 1], key), s[|s| - 1], key)
  }

  /** The elements of `s` whose key is exactly `k`, in order. */
  function WithKey<T>(s: seq<T>, key: T -> SortKey, k: SortKey): seq<T>
  {
    if s == [] then [] else WithKey(s[..|s| - 1], key, k) + (if key(s[|s| - 1]) == k then [s[|s| - 1]] else [])
  }

  lemma {:induction false} WithKeyConcat<T>(a: seq<T>, b: seq<T>, key: T -> SortKey, k: SortKey)
    ensures WithKey(a + b, key, k) == WithKey(a, key, k) + WithKey(b, key, k)
    decreases |b|
  {
    if b == [] {
      assert a + b == a;
    } else {
      var b' := b[..|b| - 1];
      assert (a + b)[..|a + b| - 1] == a + b';
      WithKeyConcat(a, b', key, k);
    }
  }

  lemma {:induction false} InsertMultiset<T>(t: seq<T>, x: T, key: T -> SortKey)
    ensures multiset(Insert(t, x, key)) == multiset(t) + multiset{x}
  {
    if t != [] && !KeyLe(key(t[|t| - 1]), key(x)) {
      assert t == t[..|t| - 1] + [t[|t| - 1]];
      InsertMultiset(t[..|t| - 1], x, key);
    }
  }

  lemma {:induction false} InsertSorted<T>(t: seq<T>, x: T, key: T -> SortKey)
    requires SortedBy(t, key)
    ensures SortedBy(Insert(t, x, key), key)
  {
    if t == [] {
    } else if KeyLe(key(t[|t| - 1]), key(x)) {
      var r := t + [x];
      forall i, j | 0 <= i < j < |r|
        ensures KeyLe(key(r[i]), key(r[j]))
      {
        if j == |r| - 1 && i < |t| - 1 {
          assert KeyLe(key(t[i]), key(t[|t| - 1]));
        }
      }
    } else {
      var t' := t[..|t| - 1];
      var last := t[|t| - 1];
      InsertSorted(t', x, key);
      InsertMultiset(t', x, key);
      var u := Insert(t', x, key);
      var r := u + [last];
      forall i, j | 0 <= i < j < |r|
        ensures KeyLe(key(r[i]), key(r[j]))
      {
        if j == |r| - 1 {
          assert r[i] in multiset(t') + multiset{x};
          if r[i] in multiset(t') {
            var m :| 0 <= m < |t'| && t'[m] == r[i];
            assert KeyLe(key(t[m]), key(t[|t| - 1]));
          }
        }
      }
    }
  }

  lemma {:induction false} InsertWithKey<T>(t: seq<T>, x: T, key: T -> SortKey, k: SortKey)
    ensures WithKey(Insert(t, x, key), key, k) == WithKey(t, key, k) + (if key(x) == k then [x] else [])
  {
    if t == [] {
      assert WithKey([x], key, k) == WithKey([], key, k) + (if key(x) == k then [x] else []);
    } else if KeyLe(key(t[|t| - 1]), key(x)) {
      var r := t + [x];
      assert r[..|r| - 1] == t;
    } else {
      var t' := t[..|t| - 1];
      var last := t[|t| - 1];
      InsertWithKey(t', x, key, k);
      var u := Insert(t', x, key);
      var r := u + [last];
      assert r[..|r| - 1] == u;
      calc {
        WithKey(r, key, k);
        WithKey(u, key, k) + (if key(last) == k then [last] else []);
        WithKey(t', key, k) + (if key(x) == k then [x] else []) + (if key(last) == k then [last] else []);
        { assert key(x) == k ==> key(last) != k; }
        WithKey(t', key, k) + (if key(last) == k then [last] else []) + (if key(x) == k then [x] else []);
        WithKey(t, key, k) + (if key(x) == k then [x] else []);
      }
    }
  }

  /**
   * The sort returns its input in order (every pair compares <= 0), as a permutation,
   * and stably: the elements sharing a key keep their input order.
   */
  lemma {:induction false} SortByFacts<T>(s: seq<T>, key: T -> SortKey)
    ensures SortedBy(SortBy(s, key), key)
    ensures multiset(SortBy(s, key)) == multiset(s)
    ensures forall k :: WithKey(SortBy(s, key), key, k) == WithKey(s, key, k)
  {
    if s != [] {
      var s' := s[..|s| - 1];
      var x := s[|s| - 1];
      assert s == s' + [x];
      SortByFacts(s', key);
      forall k
        ensures WithKey(SortBy(s, key), key, k) == WithKey(s, key, k)
      {
        InsertWithKey(SortBy(s', key), x, key, k);
      }
      InsertSorted(SortBy(s', key), x, key);
      InsertMultiset(SortBy(s', key), x, key);
    }
  }

  // ---------------------------------------------------------------- the dial queue

  /** `(l.age || 0)`: a missing age, and an age of 0, both count as 0. */
  function AgeOrZero(age: Option<int>): int
  {
    if age.Some? then age.value else 0
  }

  /** The queue's filter: a callable window now, and a status that is not skipped. */
  predicate Dialable(l: Lead, now: UtcDateTime)
    requires 1 <= now.month <= 12
  {
    Score(l.state, now) > 0 && l.status !in SkippedStatuses
  }

  function DialableFn(now: UtcDateTime): Lead -> bool
    requires 1 <= now.month <= 12
  {
    l => Dialable(l, now)
  }

  /** The sort keys: group 0 sorts first, so `newFirst` says which group NEW LEAD belongs to. */
  function LeadKey(l: Lead, now: UtcDateTime, newFirst: bool): SortKey
    requires 1 <= now.month <= 12
  {
    SortKey(if (l.status == "NEW LEAD") == newFirst then 0 else 1, -Score(l.state, now), -AgeOrZero(l.age))
  }

  function LeadKeyFn(now: UtcDateTime, newFirst: bool): Lead -> SortKey
    requires 1 <= now.month <= 12
  {
    l => LeadKey(l, now, newFirst)
  }

  /** `startSession`'s queue: the dialable leads, NEW LEAD first, then best window, then oldest. */
  function BuildQueue(leads: seq<Lead>, now: UtcDateTime): seq<Lead>
    requires 1 <= now.month <= 12
  {
    SortBy(Filter(leads, DialableFn(now)), LeadKeyFn(now, true))
  }

  /** Lead `a` may come before lead `b` in the dial queue. */
  predicate QueueOrdered(a: Lead, b: Lead, now: UtcDateTime)
    requires 1 <= now.month <= 12
  {
    var aNew, bNew := a.status == "NEW LEAD", b.status == "NEW LEAD";
    (aNew || !bNew)
    && (aNew == bNew ==> Score(a.state, now) >= Score(b.state, now))
    && (aNew == bNew && Score(a.state, now) == Score(b.state, now) ==> AgeOrZero(a.age) >= AgeOrZero(b.age))
  }

  /**
   * The queue holds exactly the dialable leads, each as often as in `leads`; every
   * pair is in queue order; and leads that tie on all three keys keep their list order.
   */
  lemma QueueFacts(leads: seq<Lead>, now: UtcDateTime)
    requires 1 <= now.month <= 12
    ensures multiset(BuildQueue(leads, now)) == multiset(Filter(leads, DialableFn(now)))
    ensures forall l :: l in BuildQueue(leads, now) <==> l in leads && Dialable(l, now)
    ensures forall i, j | 0 <= i < j < |BuildQueue(leads, now)| ::
      QueueOrdered(BuildQueue(leads, now)[i], BuildQueue(leads, now)[j], now)
    ensures forall k :: (WithKey(BuildQueue(leads, now), LeadKeyFn(now, true), k)
      == WithKey(Filter(leads, DialableFn(now)), LeadKeyFn(now, true), k))
  {
    var kept := Filter(leads, DialableFn(now));
    FilterMembers(leads, DialableFn(now));
    SortByFacts(kept, LeadKeyFn(now, true));
    var q := BuildQueue(leads, now);
    forall l
      ensures l in q <==> l in leads && Dialable(l, now)
    {
      assert l in q <==> l in multiset(q);
      assert l in kept <==> l in multiset(kept);
    }
  }

  /** `dialableCount`: the leads that pass the queue's own filter. */
  function DialableCount(leads: seq<Lead>, now: UtcDateTime): nat
    requires 1 <= now.month <= 12
  {
    |Filter(leads, DialableFn(now))|
  }

  /** The count the lead list shows is the length of the queue a session would dial. */
  lemma DialableCountIsQueueLength(leads: seq<Lead>, now: UtcDateTime)
    requires 1 <= now.month <= 12
    ensures DialableCount(leads, now) == |BuildQueue(leads, now)|
  {
    SortByFacts(Filter(leads, DialableFn(now)), LeadKeyFn(now, true));
    assert |multiset(BuildQueue(leads, now))| == |multiset(Filter(leads, DialableFn(now)))|;
  }

  /** The starting position: the first lead with `startLeadId`, or 0 when absent or not queued. */
  function StartIndex(queue: seq<Lead>, startLeadId: Option<int>): (r: nat)
    ensures queue != [] ==> r < |queue|
  {
    if startLeadId.None? then 0 else
    var idx := FindId(queue, startLeadId.value);
    if idx == -1 then 0 else idx
  }

  /**
   * The session starts at the first queued lead carrying the requested id, and at the
   * first lead when no id is requested or no queued lead carries it.
   */
  lemma StartIndexFacts(queue: seq<Lead>, startLeadId: Option<int>)
    ensures (startLeadId.Some? && StartIndex(queue, startLeadId) < |queue|
             && queue[StartIndex(queue, startLeadId)].id == startLeadId.value) ==>
      forall i | 0 <= i < StartIndex(queue, startLeadId) :: queue[i].id != startLeadId.value
    ensures startLeadId.Some? && (exists i | 0 <= i < |queue| :: queue[i].id == startLeadId.value) ==>
      queue[StartIndex(queue, startLeadId)].id == startLeadId.value
    ensures (startLeadId.None? || forall i | 0 <= i < |queue| :: queue[i].id != startLeadId.value) ==>
      StartIndex(queue, startLeadId) == 0
  {
    if startLeadId.Some? {
      FindIdFacts(queue, startLeadId.value);
    }
  }

  /** `findIndex` on ids: the first position holding `id`, or -1. */
  function FindId(queue: seq<Lead>, id: int): (r: int)
    ensures -1 <= r < |queue|
  {
    if queue == [] then -1
    else if queue[0].id == id then 0
    else
      var r := FindId(queue[1..], id);
      if r == -1 then -1 else r + 1
  }

  /** -1 exactly when no lead has the id; otherwise the first position that has it. */
  lemma {:induction false} FindIdFacts(queue: seq<Lead>, id: int)
    ensures FindId(queue, id) == -1 <==> forall i | 0 <= i < |queue| :: queue[i].id != id
    ensures FindId(queue, id) >= 0 ==>
      queue[FindId(queue, id)].id == id && forall i | 0 <= i < FindId(queue, id) :: queue[i].id != id
  {
    if queue != [] && queue[0].id != id {
      FindIdFacts(queue[1..], id);
      assert forall i | 1 <= i < |queue| :: queue[i] == queue[1..][i - 1];
    }
  }

  // ---------------------------------------------------------------- the lead list

  /** The search test: `q` is the lower-cased, untrimmed query. */
  predicate MatchesQuery(l: Lead, q: string)
  {
    Contains(ToLower(l.name), q) || Contains(l.phone, q)
    || Contains(ToLower(l.state), q) || Contains(ToLower(l.status), q)
  }

  function MatchesFn(q: string): Lead -> bool
  {
    l => MatchesQuery(l, q)
  }

  /** The leads the search keeps, before sorting. */
  function Searched(leads: seq<Lead>, search: string): seq<Lead>
  {
    if Trim(search) == "" then leads else Filter(leads, MatchesFn(ToLower(search)))
  }

  /** `filteredLeads`: a sorted copy of the searched leads, NEW LEAD last. */
  function FilteredLeads(leads: seq<Lead>, search: string, now: UtcDateTime): seq<Lead>
    requires 1 <= now.month <= 12
  {
    SortBy(Searched(leads, search), LeadKeyFn(now, false))
  }

  /** Lead `a` may come before lead `b` in the list. */
  predicate ListOrdered(a: Lead, b: Lead, now: UtcDateTime)
    requires 1 <= now.month <= 12
  {
    var aNew, bNew := a.status == "NEW LEAD", b.status == "NEW LEAD";
    (!aNew || bNew)
    && (aNew == bNew ==> Score(a.state, now) >= Score(b.state, now))
    && (aNew == bNew && Score(a.state, now) == Score(b.state, now) ==> AgeOrZero(a.age) >= AgeOrZero(b.age))
  }

  /**
   * A blank search keeps every lead; otherwise a lead is listed iff it matches the
   * lower-cased query. The list is a permutation of the kept leads, in list order,
   * and never longer than the input.
   */
  lemma FilteredLeadsFacts(leads: seq<Lead>, search: string, now: UtcDateTime)
    requires 1 <= now.month <= 12
    ensures Blank(search) ==> multiset(FilteredLeads(leads, search, now)) == multiset(leads)
    ensures !Blank(search) ==> forall l ::
      l in FilteredLeads(leads, search, now) <==> l in leads && MatchesQuery(l, ToLower(search))
    ensures multiset(FilteredLeads(leads, search, now)) == multiset(Searched(leads, search))
    ensures |FilteredLeads(leads, search, now)| <= |leads|
    ensures forall i, j | 0 <= i < j < |FilteredLeads(leads, search, now)| ::
      ListOrdered(FilteredLeads(leads, search, now)[i], FilteredLeads(leads, search, now)[j], now)
  {
    TrimEmptyIffBlank(search);
    var kept := Searched(leads, search);
    FilterMembers(leads, MatchesFn(ToLower(search)));
    SortByFacts(kept, LeadKeyFn(now, false));
    var r := FilteredLeads(leads, search, now);
    assert |multiset(r)| == |multiset(kept)|;
    if !Blank(search) {
      forall l
        ensures l in r <==> l in leads && MatchesQuery(l, ToLower(search))
      {
        assert l in r <==> l in multiset(r);
        assert l in kept <==> l in multiset(kept);
      }
    }
  }

  /** A query every lead matches (such as a single space) keeps the same leads as a blank one. */
  lemma EmptyQueryMatchesAll(l: Lead)
    ensures MatchesQuery(l, "")
  {
    EmptyContained(ToLower(l.name));
  }

  /**
   * The two orders disagree on purpose: among leads with the same score and age,
   * a NEW LEAD is dialled before any other lead but listed after it.
   */
  lemma NewLeadOrders(a: Lead, b: Lead, now: UtcDateTime)
    requires 1 <= now.month <= 12
    requires a.status == "NEW LEAD" && b.status != "NEW LEAD"
    ensures KeyLe(LeadKey(a, now, true), LeadKey(b, now, true))
      && !KeyLe(LeadKey(b, now, true), LeadKey(a, now, true))
    ensures KeyLe(LeadKey(b, now, false), LeadKey(a, now, false))
      && !KeyLe(LeadKey(a, now, false), LeadKey(b, now, false))
  {
  }

  /** The empty-list message depends only on whether anything was typed. */
  function EmptyListText(search: string): (r: string)
    ensures r == "No leads loaded" <==> search == ""
  {
    if search != "" then "No leads match your search" else "No leads loaded"
  }
}
