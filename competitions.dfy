/**
 * `CompetitionService`: competitions with a name, ISO date-time strings for start and
 * end, and a status among "ongoing", "upcoming" and "ended". Dates are compared as
 * strings; the days left until the end are counted from the date part of the end.
 */
module Competitions {
  import opened Wrappers
  import opened JavaText
  import opened JavaNumbers

  const ONGOING: string := "ongoing"
  const UPCOMING: string := "upcoming"
  const ENDED: string := "ended"
  const DEFAULT_NAME: string := "새 대회"
  const DEFAULT_START: string := "2025-03-01T00:00:00"
  const DEFAULT_END: string := "2025-03-31T23:59:59"
  const DATES_OUT_OF_ORDER: string := "종료일은 시작일보다 이후여야 합니다."
  const COMPETITION_NOT_FOUND: string := "대회를 찾을 수 없습니다."
  /** The length of the date part of "yyyy-MM-ddTHH:mm:ss". */
  const DATE_LENGTH: nat := 10

  /** The entity; the status is nullable at the Java level. */
  datatype Competition = Competition(id: int, name: string, startDate: string, endDate: string, status: Option<string>)

  /** `String.compareTo`: the difference of the first differing characters, else of the lengths. */
  function CompareTo(a: string, b: string): int
    decreases |a|
  {
    if a == [] || b == [] then |a| - |b|
    else if a[0] != b[0] then a[0] as int - b[0] as int
    else CompareTo(a[1..], b[1..])
  }

  /** Two strings compare equal exactly when they are equal. */
  lemma {:induction false} CompareToZero(a: string, b: string)
    ensures CompareTo(a, b) == 0 <==> a == b
    decreases |a|
  {
    if a != [] && b != [] && a[0] == b[0] {
      CompareToZero(a[1..], b[1..]);
      assert a == [a[0]] + a[1..] && b == [b[0]] + b[1..];
    }
  }

  /** Swapping the operands negates the comparison. */
  lemma {:induction false} CompareToAntisymmetric(a: string, b: string)
    ensures CompareTo(a, b) == -CompareTo(b, a)
    decreases |a|
  {
    if a != [] && b != [] && a[0] == b[0] {
      CompareToAntisymmetric(a[1..], b[1..]);
    }
  }

  /** The date check of `create` and `update`: both dates given and the end not after the start. */
  predicate DatesRejected(startDate: Option<string>, endDate: Option<string>) {
    endDate.Some? && startDate.Some? && CompareTo(endDate.value, startDate.value) <= 0
  }

  /** Equal dates are refused, and of two different dates exactly one order is accepted. */
  lemma DatesRejectedSpec(a: string, b: string)
    ensures DatesRejected(Some(a), Some(a))
    ensures a != b ==> (DatesRejected(Some(a), Some(b)) <==> !DatesRejected(Some(b), Some(a)))
  {
    CompareToZero(a, a);
    CompareToZero(a, b);
    CompareToAntisymmetric(a, b);
  }

  predicate AllowedStatus(s: string) {
    s == ONGOING || s == UPCOMING || s == ENDED
  }

  /** `create`: refused on out-of-order dates; otherwise defaults for the missing fields and
      the status "upcoming". `id` is the generated key. */
  function CreateOutcome(id: int, name: Option<string>, startDate: Option<string>, endDate: Option<string>)
    : (r: Result<Competition>)
    ensures r.Err? <==> DatesRejected(startDate, endDate)
    ensures r.Err? ==> r.error == Api(BadRequest, DATES_OUT_OF_ORDER)
    ensures r.Ok? ==>
      r.value.id == id && r.value.status == Some(UPCOMING)
      && r.value.name == name.GetOr(DEFAULT_NAME)
      && r.value.startDate == startDate.GetOr(DEFAULT_START)
      && r.value.endDate == endDate.GetOr(DEFAULT_END)
  {
    if DatesRejected(startDate, endDate) then Err(Api(BadRequest, DATES_OUT_OF_ORDER))
    else Ok(Competition(id, if name.Some? then name.value else DEFAULT_NAME,
                        if startDate.Some? then startDate.value else DEFAULT_START,
                        if endDate.Some? then endDate.value else DEFAULT_END, Some(UPCOMING)))
  }

  /** `update` on the stored competition (None when `findById` finds nothing). */
  function UpdateOutcome(stored: Option<Competition>, name: Option<string>, startDate: Option<string>,
                         endDate: Option<string>, status: Option<string>): (r: Result<Competition>)
    ensures stored.None? ==> r == Err(Api(NotFound, COMPETITION_NOT_FOUND))
    ensures stored.Some? ==> (r.Err? <==> DatesRejected(startDate, endDate))
    ensures stored.Some? && r.Err? ==> r.error == Api(BadRequest, DATES_OUT_OF_ORDER)
    ensures r.Ok? ==>
      var c := stored.value;
      r.value.id == c.id
      && r.value.name == name.GetOr(c.name)
      && r.value.startDate == startDate.GetOr(c.startDate)
      && r.value.endDate == endDate.GetOr(c.endDate)
      && r.value.status == (if status.Some? && AllowedStatus(status.value) then status else c.status)
  {
    if stored.None? then Err(Api(NotFound, COMPETITION_NOT_FOUND))
    else if DatesRejected(startDate, endDate) then Err(Api(BadRequest, DATES_OUT_OF_ORDER))
    else
      var c := stored.value;
      var c1 := if name.Some? then c.(name := name.value) else c;
      var c2 := if startDate.Some? then c1.(startDate := startDate.value) else c1;
      var c3 := if endDate.Some? then c2.(endDate := endDate.value) else c2;
      Ok(if status.Some? && AllowedStatus(status.value) then c3.(status := status) else c3)
  }

  /** An update never gives a competition a status outside the three allowed ones. */
  lemma UpdateKeepsStatusAllowed(stored: Competition, name: Option<string>, startDate: Option<string>,
                                 endDate: Option<string>, status: Option<string>)
    requires stored.status.Some? && AllowedStatus(stored.status.value)
    ensures var r := UpdateOutcome(Some(stored), name, startDate, endDate, status);
      r.Ok? ==> r.value.status.Some? && AllowedStatus(r.value.status.value)
  {
  }

  /** The competition as `toMap` shows it. */
  datatype CompetitionView = CompetitionView(id: int, name: string, startDate: string, endDate: string, status: string)

  /** `toMap`: a null status shows as "upcoming". */
  function ToMap(c: Competition): (v: CompetitionView)
    ensures v.status == c.status.GetOr(UPCOMING)
    ensures v.id == c.id && v.name == c.name && v.startDate == c.startDate && v.endDate == c.endDate
  {
    CompetitionView(c.id, c.name, c.startDate, c.endDate, if c.status.Some? then c.status.value else UPCOMING)
  }

  /** `daysRemaining`: whole days from `today` to the date part of the end, narrowed to an
      `int`; 0 for a missing, blank or unparsable end. `parseDate` is `LocalDate.parse`
      (an epoch day, or None where it throws) and `today` is `LocalDate.now()`. */
  function DaysRemaining(endDate: Option<string>, parseDate: string -> Option<int>, today: int): (r: int)
    ensures NullOrBlank(endDate) ==> r == 0
    ensures InInt(r)
    ensures !NullOrBlank(endDate) && |endDate.value| >= DATE_LENGTH ==>
      r == (var d := parseDate(endDate.value[..DATE_LENGTH]); if d.None? then 0 else Wrap32(d.value - today))
    ensures !NullOrBlank(endDate) && |endDate.value| < DATE_LENGTH ==>
      r == (var d := parseDate(endDate.value); if d.None? then 0 else Wrap32(d.value - today))
  {
    if NullOrBlank(endDate) then 0
    else
      var e := endDate.value;
      var datePart := if |e| >= DATE_LENGTH then e[..DATE_LENGTH] else e;
      var end := parseDate(datePart);
      if end.None? then 0 else Wrap32(end.value - today)
  }

  /** Only the first ten characters of the end count: two ends with the same date part
      have the same days remaining, whatever time follows. */
  lemma DaysRemainingReadsDatePart(a: string, b: string, parseDate: string -> Option<int>, today: int)
    requires |a| >= DATE_LENGTH && |b| >= DATE_LENGTH && a[..DATE_LENGTH] == b[..DATE_LENGTH]
    requires !IsBlank(a) && !IsBlank(b)
    ensures DaysRemaining(Some(a), parseDate, today) == DaysRemaining(Some(b), parseDate, today)
  {
  }

  class CompetitionService {
    var competitions: map<int, Competition>
    var nextId: int

    /** Every competition is filed under its id, below the next id, with an allowed status. */
    predicate Valid()
      reads this
    {
      forall k :: k in competitions ==>
        competitions[k].id == k && k < nextId
        && competitions[k].status.Some? && AllowedStatus(competitions[k].status.value)
    }

    constructor ()
      ensures Valid() && competitions == map[] && nextId == 1
    {
      competitions := map[];
      nextId := 1;
    }

    /** `create`. */
    method Create(name: Option<string>, startDate: Option<string>, endDate: Option<string>)
      returns (r: Result<Competition>)
      requires Valid()
      modifies this
      ensures Valid()
      ensures r == CreateOutcome(old(nextId), name, startDate, endDate)
      ensures r.Ok? ==> competitions == old(competitions)[r.value.id := r.value] && nextId == old(nextId) + 1
      ensures r.Err? ==> competitions == old(competitions) && nextId == old(nextId)
    {
      if endDate.Some? && startDate.Some? && CompareTo(endDate.value, startDate.value) <= 0 {
        return Err(Api(BadRequest, DATES_OUT_OF_ORDER));
      }
      var c := Competition(nextId, if name.Some? then name.value else DEFAULT_NAME,
                           if startDate.Some? then startDate.value else DEFAULT_START,
                           if endDate.Some? then endDate.value else DEFAULT_END, Some(UPCOMING));
      competitions := competitions[c.id := c];
      nextId := nextId + 1;
      r := Ok(c);
    }

    /** `update`: the lookup, the date check, then one setter per non-null field. */
    method Update(id: int, name: Option<string>, startDate: Option<string>, endDate: Option<string>,
                  status: Option<string>) returns (r: Result<Competition>)
      requires Valid()
      modifies this
      ensures Valid()
      ensures r == UpdateOutcome(if id in old(competitions) then Some(old(competitions)[id]) else None,
                                 name, startDate, endDate, status)
      ensures r.Ok? ==> competitions == old(competitions)[id := r.value]
      ensures r.Err? ==> competitions == old(competitions)
      ensures nextId == old(nextId)
    {
      if id !in competitions {
        return Err(Api(NotFound, COMPETITION_NOT_FOUND));
      }
      var c := competitions[id];
      if endDate.Some? && startDate.Some? && CompareTo(endDate.value, startDate.value) <= 0 {
        return Err(Api(BadRequest, DATES_OUT_OF_ORDER));
      }
      if name.Some? {
        c := c.(name := name.value);
      }
      if startDate.Some? {
        c := c.(startDate := startDate.value);
      }
      if endDate.Some? {
        c := c.(endDate := endDate.value);
      }
      if status.Some? && (status.value == ONGOING || status.value == UPCOMING || status.value == ENDED) {
        c := c.(status := status);
      }
      competitions := competitions[id := c];
      r := Ok(c);
    }
  }
}
