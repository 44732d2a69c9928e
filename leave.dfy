/** The leave calendar (frontend/src/components/Leave.jsx): a fixed roster, a
    case-insensitive name search, and for each of the eleven days shown the
    leave that covers it, drawn as a block whose offset and width are
    percentages of the day column. */
module Leave {
  import opened Common

  /** A leave covering the days `start` to `end` of the month, both included. */
  datatype LeaveSpan = LeaveSpan(kind: string, start: int, end: int)

  datatype RosterEntry = RosterEntry(name: string, img: string, leaves: seq<LeaveSpan>)

  function Portrait(folder: string, n: nat): string {
    "https://randomuser.me/api/portraits/" + folder + "/" + NatToString(n) + ".jpg"
  }

  const ROSTER: seq<RosterEntry> := [
    RosterEntry("Ignatious Anto", Portrait("men", 1), []),
    RosterEntry("Joe Kuriyan", Portrait("men", 2), []),
    RosterEntry("Pavithra Orakkan", Portrait("women", 3), []),
    RosterEntry("Duke Silver", Portrait("men", 4), []),
    RosterEntry("Janani Iyer", Portrait("women", 5), [LeaveSpan("Paid", 18, 19)]),
    RosterEntry("Manjuna Mohan", Portrait("men", 6), []),
    RosterEntry("Mammootty", Portrait("men", 7), []),
    RosterEntry("Sahane Nigam", Portrait("women", 8), [LeaveSpan("Sick", 22, 22)]),
    RosterEntry("Dulquer Salman", Portrait("men", 9), []),
    RosterEntry("Fahadh Faasil", Portrait("men", 10), []),
    RosterEntry("Nazriya Nazim", Portrait("women", 11), []),
    RosterEntry("Prithvi Raj", Portrait("men", 12), [LeaveSpan("Casual", 26, 26)]),
    RosterEntry("Antony Varghese", Portrait("men", 13), [LeaveSpan("Paid", 27, 28)])
  ]

  /** The colour of each kind of leave. */
  const LEAVE_TYPES: map<string, string> := map[
    "Bereavement" := "#E57373",
    "Casual" := "#42A5F5",
    "Paid" := "#FFB74D",
    "Sick" := "#9575CD",
    "Volunteer" := "#F06292"]

  // ---------------------------------------------------------------------
  // The search

  predicate Matches(e: RosterEntry, term: string) {
    Contains(Lower(e.name), Lower(term))
  }

  /** `employees.filter(emp => emp.name.toLowerCase().includes(term.toLowerCase()))`. */
  function Filter(list: seq<RosterEntry>, term: string): (r: seq<RosterEntry>)
    ensures |r| <= |list|
    ensures forall e :: e in r ==> e in list && Matches(e, term)
  {
    if list == [] then []
    else if Matches(list[0], term) then [list[0]] + Filter(list[1..], term)
    else Filter(list[1..], term)
  }

  /** The filter keeps exactly the matching entries. */
  lemma {:induction false} FilterExact(list: seq<RosterEntry>, term: string, e: RosterEntry)
    ensures e in Filter(list, term) <==> e in list && Matches(e, term)
  {
    if list != [] {
      FilterExact(list[1..], term, e);
      assert list == [list[0]] + list[1..];
    }
  }

  /** An empty search keeps the whole roster. */
  lemma {:induction false} FilterEmptyTerm(list: seq<RosterEntry>)
    ensures Filter(list, "") == list
  {
    if list != [] {
      ContainsEmpty(Lower(list[0].name));
      assert Lower("") == "";
      FilterEmptyTerm(list[1..]);
    }
  }

  /** The search distributes over concatenation, so every copy of a repeated
      entry is kept. */
  lemma {:induction false} FilterAppend(a: seq<RosterEntry>, b: seq<RosterEntry>, term: string)
    ensures Filter(a + b, term) == Filter(a, term) + Filter(b, term)
  {
    if a != [] {
      assert (a + b)[0] == a[0] && (a + b)[1..] == a[1..] + b;
      FilterAppend(a[1..], b, term);
    } else {
      assert a + b == b;
    }
  }

  lemma {:induction false} FilterSubsequence(list: seq<RosterEntry>, term: string)
    ensures Subsequence(Filter(list, term), list)
  {
    if list != [] {
      FilterSubsequence(list[1..], term);
      var rest := Filter(list[1..], term);
      if Matches(list[0], term) {
        assert ([list[0]] + rest)[1..] == rest;
      } else {
        SubsequenceWeaken(rest, list);
      }
    }
  }

  // ---------------------------------------------------------------------
  // The calendar

  const FIRST_DAY := 18
  const COLUMNS := 11

  /** The day of each column: `18 + day` for day 0 to 10. */
  function Days(): (r: seq<int>)
    ensures |r| == COLUMNS && r[0] == 18 && r[COLUMNS - 1] == 28
    ensures forall i :: 0 <= i < |r| ==> r[i] == FIRST_DAY + i
  {
    seq(COLUMNS, i => FIRST_DAY + i)
  }

  predicate Covers(l: LeaveSpan, d: int) {
    l.start <= d && l.end >= d
  }

  /** `leaves.find(l => l.start <= d && l.end >= d)`. */
  function LeaveOn(leaves: seq<LeaveSpan>, d: int): (r: Option<LeaveSpan>)
    ensures r.None? <==> forall i :: 0 <= i < |leaves| ==> !Covers(leaves[i], d)
    ensures r.Some? ==> exists i :: (0 <= i < |leaves| && leaves[i] == r.value && Covers(r.value, d)
      && forall j :: 0 <= j < i ==> !Covers(leaves[j], d))
  {
    if leaves == [] then None
    else if Covers(leaves[0], d) then Some(leaves[0])
    else
      var r := LeaveOn(leaves[1..], d);
      if r.Some? then
        var i :| 0 <= i < |leaves[1..]| && leaves[1..][i] == r.value && Covers(r.value, d)
          && forall j :: 0 <= j < i ==> !Covers(leaves[1..][j], d);
        assert leaves[i + 1] == r.value;
        r
      else r
  }

  /** The block drawn for a leave: colour, left offset and width, in percent. */
  datatype Block = Block(color: Option<string>, left: int, width: int)

  function BlockOf(l: LeaveSpan): (b: Block)
    ensures b.left == (l.start - FIRST_DAY) * 9
    ensures b.width == (l.end - l.start + 1) * 9
    ensures b.color.Some? <==> l.kind in LEAVE_TYPES
    ensures b.color.Some? ==> b.color.value == LEAVE_TYPES[l.kind]
  {
    Block(if l.kind in LEAVE_TYPES then Some(LEAVE_TYPES[l.kind]) else None,
          (l.start - FIRST_DAY) * 9, (l.end - l.start + 1) * 9)
  }

  /** What column `day` shows for one entry. */
  function Cell(e: RosterEntry, day: int): (c: Option<Block>)
    ensures c.None? <==> forall i :: 0 <= i < |e.leaves| ==> !Covers(e.leaves[i], FIRST_DAY + day)
    ensures c.Some? ==> exists i :: (0 <= i < |e.leaves| && Covers(e.leaves[i], FIRST_DAY + day)
      && c.value == BlockOf(e.leaves[i]) && forall j :: 0 <= j < i ==> !Covers(e.leaves[j], FIRST_DAY + day))
  {
    var l := LeaveOn(e.leaves, FIRST_DAY + day);
    if l.Some? then Some(BlockOf(l.value)) else None
  }

  /** A leave that starts no later than it ends has a positive width. */
  lemma WidthPositive(l: LeaveSpan)
    requires l.start <= l.end
    ensures BlockOf(l).width >= 9
  {
  }

  /** A leave inside the eleven days shown yields a block inside [0, 99]. */
  lemma BlockWithinCalendar(l: LeaveSpan)
    requires FIRST_DAY <= l.start <= l.end <= FIRST_DAY + COLUMNS - 1
    ensures 0 <= BlockOf(l).left && BlockOf(l).left + BlockOf(l).width <= COLUMNS * 9
  {
  }

  /** Every leave on the roster lies inside the eleven days and has a colour. */
  lemma RosterLeavesShown()
    ensures forall e, l :: e in ROSTER && l in e.leaves ==>
      FIRST_DAY <= l.start <= l.end <= FIRST_DAY + COLUMNS - 1 && l.kind in LEAVE_TYPES
  {
  }

  /** Janani Iyer's paid leave shows on the 18th and 19th and on no other day. */
  lemma JananiOnLeave(day: int)
    requires 0 <= day < COLUMNS
    ensures Cell(ROSTER[4], day).Some? <==> day <= 1
    ensures day <= 1 ==> Cell(ROSTER[4], day) == Some(Block(Some("#FFB74D"), 0, 18))
  {
  }
}
