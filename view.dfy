/**
 * The pure part of the dashboard (frontend/src/App.js): the `filteredRisks`
 * projection (filter by status, then sort by score or id), the severity
 * colours used by the cards and both charts, and the mock trend shown for a
 * selected user.
 */
module View {

  datatype Option<T> = None | Some(value: T)

  /** A risk record as the dashboard receives it; `id` is a string here. */
  datatype RiskRecord = RiskRecord(id: string, score: int, status: string, reasons: seq<string>)

  /** The filter value that keeps every record. */
  const ALL := "all"
  /** The sort key that orders by descending score; any other key orders by id. */
  const SCORE_KEY := "score"

  // ---------------------------------------------------------------------------
  // The filter: the value `all` keeps every record, any other value keeps
  // the records whose status is exactly that value
  // ---------------------------------------------------------------------------

  predicate Keep(filter: string, r: RiskRecord)
    ensures filter == ALL ==> Keep(filter, r)
    ensures filter != ALL ==> (Keep(filter, r) <==> r.status == filter)
  {
    filter == ALL || r.status == filter
  }

  function FilterByStatus(risks: seq<RiskRecord>, filter: string): (kept: seq<RiskRecord>)
    ensures |kept| <= |risks|
    ensures forall i :: 0 <= i < |kept| ==> Keep(filter, kept[i])
  {
    if risks == [] then []
    else (if Keep(filter, risks[0]) then [risks[0]] else []) + FilterByStatus(risks[1..], filter)
  }

  /** The filter keeps exactly the matching records, each as often as it occurs. */
  lemma {:induction false} FilterCount(risks: seq<RiskRecord>, filter: string, x: RiskRecord)
    ensures multiset(FilterByStatus(risks, filter))[x] == if Keep(filter, x) then multiset(risks)[x] else 0
  {
    if risks != [] {
      FilterCount(risks[1..], filter, x);
      assert risks == [risks[0]] + risks[1..];
    }
  }

  /** With the filter `all` nothing is dropped and the order is kept. */
  lemma {:induction false} FilterAllIsIdentity(risks: seq<RiskRecord>)
    ensures FilterByStatus(risks, ALL) == risks
  {
    if risks != [] {
      FilterAllIsIdentity(risks[1..]);
      assert risks == [risks[0]] + risks[1..];
    }
  }

  // ---------------------------------------------------------------------------
  // The id order: `localeCompare`, modelled as ordinal lexicographic order
  // ---------------------------------------------------------------------------

  /** `a` is ordered no later than `b`; a prefix comes first, and the first differing character decides. */
  predicate IdLe(a: string, b: string)
    ensures a <= b ==> IdLe(a, b)
    ensures IdLe(a, b) && a != [] ==> b != [] && a[0] <= b[0]
    decreases |a|
  {
    a == [] || (b != [] && (a[0] < b[0] || (a[0] == b[0] && IdLe(a[1..], b[1..]))))
  }

  lemma {:induction false} IdLeTotal(a: string, b: string)
    ensures IdLe(a, b) || IdLe(b, a)
    decreases |a|
  {
    if a != [] && b != [] && a[0] == b[0] {
      IdLeTotal(a[1..], b[1..]);
    }
  }

  lemma {:induction false} IdLeTransitive(a: string, b: string, c: string)
    requires IdLe(a, b) && IdLe(b, c)
    ensures IdLe(a, c)
    decreases |a|
  {
    if a != [] && a[0] == b[0] && b[0] == c[0] {
      IdLeTransitive(a[1..], b[1..], c[1..]);
    }
  }

  lemma {:induction false} IdLeAntisymmetric(a: string, b: string)
    requires IdLe(a, b) && IdLe(b, a)
    ensures a == b
    decreases |a|
  {
    if a != [] {
      IdLeAntisymmetric(a[1..], b[1..]);
      assert a == [a[0]] + a[1..] && b == [b[0]] + b[1..];
    }
  }

  // ---------------------------------------------------------------------------
  // The comparator: for the key `score` the difference of the two scores
  // (higher first), for any other key the comparison of the two ids
  // ---------------------------------------------------------------------------

  /** `a` may stand before `b`: the comparator does not return a positive number. */
  predicate Before(sortKey: string, a: RiskRecord, b: RiskRecord)
    ensures sortKey == SCORE_KEY ==> (Before(sortKey, a, b) <==> a.score >= b.score)
    ensures sortKey != SCORE_KEY ==> (Before(sortKey, a, b) <==> IdLe(a.id, b.id))
  {
    if sortKey == SCORE_KEY then b.score - a.score <= 0 else IdLe(a.id, b.id)
  }

  lemma BeforeTotal(sortKey: string, a: RiskRecord, b: RiskRecord)
    ensures Before(sortKey, a, b) || Before(sortKey, b, a)
  {
    if sortKey != SCORE_KEY {
      IdLeTotal(a.id, b.id);
    }
  }

  lemma BeforeTransitive(sortKey: string, a: RiskRecord, b: RiskRecord, c: RiskRecord)
    requires Before(sortKey, a, b) && Before(sortKey, b, c)
    ensures Before(sortKey, a, c)
  {
    if sortKey != SCORE_KEY {
      IdLeTransitive(a.id, b.id, c.id);
    }
  }

  predicate Sorted(sortKey: string, s: seq<RiskRecord>)
  {
    forall i, j :: 0 <= i < j < |s| ==> Before(sortKey, s[i], s[j])
  }

  /** Places `x` in front of the first element it may precede (so that ties keep their order). */
  function Insert(sortKey: string, x: RiskRecord, s: seq<RiskRecord>): (r: seq<RiskRecord>)
    ensures |r| == |s| + 1
    ensures x in r && forall y :: y in s ==> y in r
  {
    if s == [] then [x]
    else if Before(sortKey, x, s[0]) then [x] + s
    else [s[0]] + Insert(sortKey, x, s[1..])
  }

  /** Insertion sort by the comparator of `sortKey`. */
  function SortBy(sortKey: string, s: seq<RiskRecord>): (r: seq<RiskRecord>)
    ensures |r| == |s|
    ensures forall y :: y in s ==> y in r
  {
    if s == [] then [] else Insert(sortKey, s[0], SortBy(sortKey, s[1..]))
  }

  lemma {:induction false} InsertPermutes(sortKey: string, x: RiskRecord, s: seq<RiskRecord>)
    ensures multiset(Insert(sortKey, x, s)) == multiset(s) + multiset{x}
  {
    if s != [] && !Before(sortKey, x, s[0]) {
      InsertPermutes(sortKey, x, s[1..]);
      assert s == [s[0]] + s[1..];
    }
  }

  /** A sorted sequence stays sorted when its first element is smaller than the rest. */
  lemma ConsSorted(sortKey: string, y: RiskRecord, t: seq<RiskRecord>)
    requires Sorted(sortKey, t)
    requires forall j :: 0 <= j < |t| ==> Before(sortKey, y, t[j])
    ensures Sorted(sortKey, [y] + t)
  {
  }

  lemma {:induction false} InsertSorted(sortKey: string, x: RiskRecord, s: seq<RiskRecord>)
    requires Sorted(sortKey, s)
    ensures Sorted(sortKey, Insert(sortKey, x, s))
  {
    if s == [] {
    } else if Before(sortKey, x, s[0]) {
      forall j | 0 <= j < |s| ensures Before(sortKey, x, s[j]) {
        if j > 0 {
          BeforeTransitive(sortKey, x, s[0], s[j]);
        }
      }
      ConsSorted(sortKey, x, s);
    } else {
      var rest := s[1..];
      var t := Insert(sortKey, x, rest);
      InsertSorted(sortKey, x, rest);
      InsertPermutes(sortKey, x, rest);
      BeforeTotal(sortKey, x, s[0]);
      forall j | 0 <= j < |t| ensures Before(sortKey, s[0], t[j]) {
        assert t[j] in multiset(t);
        if t[j] != x {
          assert t[j] in multiset(rest);
          var m :| 0 <= m < |rest| && rest[m] == t[j];
          assert s[m + 1] == t[j];
        }
      }
      ConsSorted(sortKey, s[0], t);
    }
  }

  lemma {:induction false} SortPermutes(sortKey: string, s: seq<RiskRecord>)
    ensures multiset(SortBy(sortKey, s)) == multiset(s)
  {
    if s != [] {
      SortPermutes(sortKey, s[1..]);
      InsertPermutes(sortKey, s[0], SortBy(sortKey, s[1..]));
      assert s == [s[0]] + s[1..];
    }
  }

  lemma {:induction false} SortSorts(sortKey: string, s: seq<RiskRecord>)
    ensures Sorted(sortKey, SortBy(sortKey, s))
  {
    if s != [] {
      SortSorts(sortKey, s[1..]);
      InsertSorted(sortKey, s[0], SortBy(sortKey, s[1..]));
    }
  }

  // ---------------------------------------------------------------------------
  // The projection `filteredRisks`
  // ---------------------------------------------------------------------------

  /**
   * The records on display: the filtered records in a new sequence, sorted by
   * descending score for the key `score` and by ascending id for any other key.
   */
  function Project(risks: seq<RiskRecord>, filter: string, sortKey: string): (view: seq<RiskRecord>)
    ensures multiset(view) == multiset(FilterByStatus(risks, filter))
    ensures sortKey == SCORE_KEY ==> forall i, j :: 0 <= i < j < |view| ==> view[i].score >= view[j].score
    ensures sortKey != SCORE_KEY ==> forall i, j :: 0 <= i < j < |view| ==> IdLe(view[i].id, view[j].id)
  {
    var kept := FilterByStatus(risks, filter);
    SortPermutes(sortKey, kept);
    SortSorts(sortKey, kept);
    SortBy(sortKey, kept)
  }

  /** The view holds exactly the records whose status passes the filter, as often as `risks` does. */
  lemma ProjectExact(risks: seq<RiskRecord>, filter: string, sortKey: string, x: RiskRecord)
    ensures multiset(Project(risks, filter, sortKey))[x] == if Keep(filter, x) then multiset(risks)[x] else 0
  {
    FilterCount(risks, filter, x);
  }

  /** Membership in both directions: a record is shown iff it is in `risks` and passes the filter. */
  lemma ProjectMembers(risks: seq<RiskRecord>, filter: string, sortKey: string, x: RiskRecord)
    ensures x in Project(risks, filter, sortKey) <==> x in risks && (filter == ALL || x.status == filter)
  {
    ProjectExact(risks, filter, sortKey, x);
    assert x in Project(risks, filter, sortKey) <==> x in multiset(Project(risks, filter, sortKey));
    assert x in risks <==> x in multiset(risks);
  }

  /** With the filter `all` the view is a permutation of `risks`. */
  lemma ProjectAllPermutes(risks: seq<RiskRecord>, sortKey: string)
    ensures multiset(Project(risks, ALL, sortKey)) == multiset(risks)
  {
    FilterAllIsIdentity(risks);
  }

  // ---------------------------------------------------------------------------
  // Severity colours
  // ---------------------------------------------------------------------------

  const PURPLE := "#7e22ce"
  const RED := "#dc2626"
  const AMBER := "#f59e0b"
  const GREEN := "#16a34a"

  const PURPLE_TEXT := "text-purple-700 font-bold"
  const RED_TEXT := "text-red-600 font-bold"
  const YELLOW_TEXT := "text-yellow-500 font-bold"
  const GREEN_TEXT := "text-green-600 font-bold"

  /** The fill of a bar and the stroke of the trend line for a status. */
  function ChartColor(status: string): (color: string)
    ensures color == PURPLE <==> status == "suspicious"
    ensures color == RED <==> status == "high risk"
    ensures color == AMBER <==> status == "risk"
    ensures color == GREEN <==> status != "suspicious" && status != "high risk" && status != "risk"
  {
    if status == "suspicious" then PURPLE
    else if status == "high risk" then RED
    else if status == "risk" then AMBER
    else GREEN
  }

  /** The text style of a card's status line. */
  function CardClass(status: string): (style: string)
    ensures style == PURPLE_TEXT <==> status == "suspicious"
    ensures style == RED_TEXT <==> status == "high risk"
    ensures style == YELLOW_TEXT <==> status == "risk"
    ensures style == GREEN_TEXT <==> status != "suspicious" && status != "high risk" && status != "risk"
  {
    if status == "suspicious" then PURPLE_TEXT
    else if status == "high risk" then RED_TEXT
    else if status == "risk" then YELLOW_TEXT
    else GREEN_TEXT
  }

  /** The card and the charts put every status in the same colour class. */
  lemma ColorVariantsAgree(status: string)
    ensures CardClass(status) == PURPLE_TEXT <==> ChartColor(status) == PURPLE
    ensures CardClass(status) == RED_TEXT <==> ChartColor(status) == RED
    ensures CardClass(status) == YELLOW_TEXT <==> ChartColor(status) == AMBER
    ensures CardClass(status) == GREEN_TEXT <==> ChartColor(status) == GREEN
  {
  }

  // ---------------------------------------------------------------------------
  // Mock trend
  // ---------------------------------------------------------------------------

  datatype TrendPoint = TrendPoint(time: string, score: int)

  const TREND_LENGTH := 10
  const TREND_FLOOR := 5

  /** The character of decimal digit `d`. */
  function Digit(d: nat): (c: char)
    requires d < 10
    ensures '0' <= c <= '9' && c as int - '0' as int == d
  {
    ('0' as int + d) as char
  }

  /** The number a string of decimal digits denotes, most significant digit first. */
  function DigitsValue(s: string): int
  {
    if s == [] then 0 else 10 * DigitsValue(s[..|s| - 1]) + (s[|s| - 1] as int - '0' as int)
  }

  /**
   * The decimal numeral of `n`, as a template literal prints it: digits only,
   * no leading zero, and denoting `n`.
   */
  function Decimal(n: nat): (s: string)
    ensures |s| >= 1
    ensures forall i :: 0 <= i < |s| ==> '0' <= s[i] <= '9'
    ensures |s| > 1 ==> s[0] != '0'
    ensures DigitsValue(s) == n
    ensures n < 10 ==> s == [Digit(n)]
  {
    if n < 10 then [Digit(n)]
    else
      var s := Decimal(n / 10) + [Digit(n % 10)];
      assert s[..|s| - 1] == Decimal(n / 10);
      s
  }

  function Max(a: int, b: int): (m: int)
    ensures m >= a && m >= b && (m == a || m == b)
  {
    if a >= b then a else b
  }

  /**
   * `generateMockTrend`: ten points labelled `T1` to `T10`. `raw(i)` is the
   * rounded value `score + 5*sin(i) + noise` before the floor is applied.
   */
  function MockTrend(raw: nat -> int): (points: seq<TrendPoint>)
    ensures |points| == TREND_LENGTH
    ensures forall i :: 0 <= i < |points| ==> points[i].time == "T" + Decimal(i + 1)
    ensures forall i :: 0 <= i < |points| ==> points[i].score >= TREND_FLOOR
    ensures forall i :: 0 <= i < |points| && raw(i) >= TREND_FLOOR ==> points[i].score == raw(i)
    ensures forall i :: 0 <= i < |points| && raw(i) < TREND_FLOOR ==> points[i].score == TREND_FLOOR
  {
    seq(TREND_LENGTH, i requires 0 <= i => PointAt(raw, i))
  }

  /** Point `i` of the trend: labelled `T` and the numeral of i+1, its score floored at 5. */
  function PointAt(raw: nat -> int, i: nat): (p: TrendPoint)
    ensures p.time == "T" + Decimal(i + 1)
    ensures p.score >= TREND_FLOOR
    ensures raw(i) >= TREND_FLOOR ==> p.score == raw(i)
    ensures raw(i) < TREND_FLOOR ==> p.score == TREND_FLOOR
  {
    TrendPoint("T" + Decimal(i + 1), Max(TREND_FLOOR, raw(i)))
  }

  function Times(points: seq<TrendPoint>): seq<string>
  {
    seq(|points|, i requires 0 <= i < |points| => points[i].time)
  }

  /** The labels are exactly `T1`, ..., `T10`, in index order. */
  lemma MockTrendLabels(raw: nat -> int)
    ensures Times(MockTrend(raw)) == ["T1", "T2", "T3", "T4", "T5", "T6", "T7", "T8", "T9", "T10"]
  {
    var points := MockTrend(raw);
    assert Decimal(10) == Decimal(1) + ['0'];
    assert Decimal(1) == "1" && Decimal(2) == "2" && Decimal(3) == "3";
    assert Decimal(4) == "4" && Decimal(5) == "5" && Decimal(6) == "6";
    assert Decimal(7) == "7" && Decimal(8) == "8" && Decimal(9) == "9";
    var t := Times(points);
    assert t[0] == "T1" && t[1] == "T2" && t[2] == "T3" && t[3] == "T4" && t[4] == "T5";
    assert t[5] == "T6" && t[6] == "T7" && t[7] == "T8" && t[8] == "T9" && t[9] == "T10";
  }
}
