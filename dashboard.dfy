/** The dashboard's month parsing, bin parsing and row/peer selection (dashboard.py). */
module Dashboard {
  import opened Common
  import opened Seqs

  // ---------------------------------------------------------------------
  // Months

  /** A month stamp (`pd.Timestamp(y, m, 1)`) or NaT. */
  datatype Dt = NaT | Month(year: int, month: int)

  /** `==` on timestamps: NaT equals nothing, itself included. */
  predicate DtEq(a: Dt, b: Dt)
  {
    a.Month? && b.Month? && a == b
  }

  /** `<` on timestamps: false whenever NaT is involved. */
  predicate DtLt(a: Dt, b: Dt)
  {
    a.Month? && b.Month? && (a.year < b.year || (a.year == b.year && a.month < b.month))
  }

  /** What `to_month_robust` yields: a month or NaT, or the text it hands on to `pd.to_datetime`. */
  datatype MonthParse = Parsed(dt: Dt) | ToDatetime(text: string)

  /** The ASCII digits of s, in order. */
  function Digits(s: string): (r: string)
    ensures AllDigits(r) && |r| <= |s|
    ensures AllDigits(s) ==> r == s
  {
    if s == [] then [] else (if IsDigit(s[0]) then [s[0]] else []) + Digits(s[1..])
  }

  lemma {:induction false} DigitsValueBound(ds: string)
    requires AllDigits(ds)
    ensures DigitsValue(ds) < Pow10(|ds|)
  {
    if ds != [] {
      DigitsValueBound(ds[..|ds| - 1]);
    }
  }

  /** `to_month_robust(s)` on its NaN and digit paths. */
  function ToMonthRobust(v: Value): (r: MonthParse)
    ensures IsNa(v) ==> r == Parsed(NaT)
    ensures r.Parsed? && r.dt.Month? ==> 1 <= r.dt.month <= 12 && 0 <= r.dt.year <= 9999
    ensures r.ToDatetime? ==> var ds := Digits(Strip(Str(v)));
                              |ds| < 6 || !(1 <= DigitsValue(ds[4..6]) <= 12)
  {
    if IsNa(v) then Parsed(NaT)
    else
      var ds := Digits(Strip(Str(v)));
      if |ds| >= 6 && 1 <= DigitsValue(ds[4..6]) <= 12 then
        DigitsValueBound(ds[..4]);
        Parsed(Month(DigitsValue(ds[..4]), DigitsValue(ds[4..6])))
      else ToDatetime(Strip(Str(v)))
  }

  /** The "YYYYMM" text of a month, as the source data writes 기준년월. */
  function YyyymmText(year: nat, month: nat): string
  {
    NatToString(year) + (if month < 10 then "0" else "") + NatToString(month)
  }

  lemma {:induction false} NatToStringLength(n: nat, k: nat)
    requires Pow10(k) <= n < Pow10(k + 1)
    ensures |NatToString(n)| == k + 1
  {
    if k > 0 {
      NatToStringLength(n / 10, k - 1);
    }
  }

  lemma {:induction false} LeadingZero(t: string)
    requires AllDigits(t)
    ensures DigitsValue("0" + t) == DigitsValue(t)
  {
    if t != [] {
      LeadingZero(t[..|t| - 1]);
      assert ("0" + t)[..|t|] == "0" + t[..|t| - 1];
    }
  }

  /** A digit string with a valid month at positions 4-5 takes the digit path. */
  lemma DigitPath(s: string)
    requires AllDigits(s) && |s| >= 6 && 1 <= DigitsValue(s[4..6]) <= 12
    ensures ToMonthRobust(VStr(s)) == Parsed(Month(DigitsValue(s[..4]), DigitsValue(s[4..6])))
  {
    DigitStringStripped(s);
  }

  /** Parsing the YYYYMM text of any four-digit year and month gives that month back. */
  lemma MonthRoundTrip(year: nat, month: nat)
    requires 1000 <= year <= 9999 && 1 <= month <= 12
    ensures ToMonthRobust(VStr(YyyymmText(year, month))) == Parsed(Month(year, month))
  {
    var y := NatToString(year);
    var m := (if month < 10 then "0" else "") + NatToString(month);
    var s := YyyymmText(year, month);
    assert s == y + m;
    NatToStringLength(year, 3);
    DigitsOfNat(year);
    DigitsOfNat(month);
    if month < 10 {
      NatToStringLength(month, 0);
      LeadingZero(NatToString(month));
    } else {
      NatToStringLength(month, 1);
    }
    assert |m| == 2 && AllDigits(m) && DigitsValue(m) == month;
    assert s[..4] == y && s[4..6] == m;
    DigitPath(s);
  }

  // ---------------------------------------------------------------------
  // Bins: "(\d+)\s*-\s*(\d+)"

  /** Length of the run of digits starting at i. */
  function DigitRun(s: string, i: nat): (n: nat)
    requires i <= |s|
    ensures i + n <= |s|
    decreases |s| - i
  {
    if i < |s| && IsDigit(s[i]) then 1 + DigitRun(s, i + 1) else 0
  }

  /** Length of the run of whitespace starting at i. */
  function SpaceRun(s: string, i: nat): (n: nat)
    requires i <= |s|
    ensures i + n <= |s|
    decreases |s| - i
  {
    if i < |s| && IsSpace(s[i]) then 1 + SpaceRun(s, i + 1) else 0
  }

  /** The two numbers of a range that matches at position i, if one does. A shorter first group
      would leave a digit where the pattern wants a space or '-', so the greedy run is the only try. */
  function MatchAt(s: string, i: nat): Option<(nat, nat)>
    requires i <= |s|
  {
    var j := i + DigitRun(s, i);
    if j == i then None else MatchDash(s, i, j)
  }

  /** After a first group s[i..j]: optional spaces, then '-'. */
  function MatchDash(s: string, i: nat, j: nat): Option<(nat, nat)>
    requires i <= j <= |s|
  {
    var k := j + SpaceRun(s, j);
    if k == |s| || s[k] != '-' then None
    else MatchSecond(s, i, j, k + 1 + SpaceRun(s, k + 1))
  }

  /** The second group starts at l after the '-' and any spaces. */
  function MatchSecond(s: string, i: nat, j: nat, l: nat): Option<(nat, nat)>
    requires i <= j <= l <= |s|
  {
    var e := l + DigitRun(s, l);
    if e == l then None else Some((DigitsValue(s[i..j]), DigitsValue(s[l..e])))
  }

  /** `re.search`: the leftmost match at or after i. */
  function SearchRange(s: string, i: nat): (r: Option<(nat, nat)>)
    requires i <= |s|
    ensures r.None? ==> forall k :: i <= k <= |s| ==> MatchAt(s, k).None?
    decreases |s| - i
  {
    if MatchAt(s, i).Some? then MatchAt(s, i)
    else if i == |s| then None
    else SearchRange(s, i + 1)
  }

  /** `parse_bin_mid(v)`. */
  function ParseBinMid(v: Value): (r: Float)
    ensures IsNa(v) ==> r == NaN
    ensures !IsNa(v) && NumberOf(v).Some? ==> r == NumberOf(v).value
    ensures !IsNa(v) && NumberOf(v).None? && SearchRange(Strip(Str(v)), 0).None? ==> r == NaN
  {
    if IsNa(v) then NaN
    else match NumberOf(v)
      case Some(f) => f
      case None =>
        match SearchRange(Strip(Str(v)), 0)
        case None => NaN
        case Some((a, b)) => Fin((a as real + b as real) / 2.0)
  }

  lemma {:induction false} DigitRunExact(s: string, i: nat, n: nat)
    requires i + n <= |s| && forall k :: i <= k < i + n ==> IsDigit(s[k])
    requires i + n == |s| || !IsDigit(s[i + n])
    ensures DigitRun(s, i) == n
    decreases n
  {
    if n > 0 {
      DigitRunExact(s, i + 1, n - 1);
    }
  }

  lemma SpaceRunZero(s: string, i: nat)
    requires i < |s| && !IsSpace(s[i])
    ensures SpaceRun(s, i) == 0
  {
  }

  /** The three parts of a + [m] + b, read back by position. */
  lemma JoinedParts<T>(a: seq<T>, m: T, b: seq<T>)
    ensures var s := a + [m] + b;
      |s| == |a| + 1 + |b| && s[0..|a|] == a && s[|a|] == m && s[|a| + 1..|s|] == b
      && (forall k :: 0 <= k < |a| ==> s[k] == a[k])
      && (forall k :: |a| + 1 <= k < |s| ==> s[k] == b[k - |a| - 1])
  {
  }

  /** MatchAt unfolded at known run lengths, with the two groups named. */
  lemma MatchAtRuns(s: string, i: nat, j: nat, e: nat, x: string, y: string)
    requires i < j < e <= |s| && s[j] == '-' && s[i..j] == x && s[j + 1..e] == y
    requires DigitRun(s, i) == j - i && SpaceRun(s, j) == 0
    requires SpaceRun(s, j + 1) == 0 && DigitRun(s, j + 1) == e - j - 1 && e > j + 1
    ensures MatchAt(s, i) == Some((DigitsValue(x), DigitsValue(y)))
  {
    assert MatchSecond(s, i, j, j + 1) == Some((DigitsValue(x), DigitsValue(y)));
    assert MatchDash(s, i, j) == MatchSecond(s, i, j, j + 1);
  }

  /** In "a-b", the first digit run is a and no space follows it. */
  lemma FirstGroup(a: string, b: string)
    requires AllDigits(a)
    ensures DigitRun(a + "-" + b, 0) == |a| && SpaceRun(a + "-" + b, |a|) == 0
  {
    var s := a + "-" + b;
    JoinedParts(a, '-', b);
    DigitRunExact(s, 0, |a|);
    SpaceRunZero(s, |a|);
  }

  /** In "a-b", no space follows the '-' and the second digit run is b. */
  lemma SecondGroup(a: string, b: string)
    requires b != [] && AllDigits(b)
    ensures SpaceRun(a + "-" + b, |a| + 1) == 0 && DigitRun(a + "-" + b, |a| + 1) == |b|
  {
    var s := a + "-" + b;
    JoinedParts(a, '-', b);
    assert s[|a| + 1] == b[0];
    SpaceRunZero(s, |a| + 1);
    DigitRunExact(s, |a| + 1, |b|);
  }

  /** The pattern matches "a-b" at its start with groups a and b. */
  lemma RangeMatch(a: string, b: string)
    requires a != [] && b != [] && AllDigits(a) && AllDigits(b)
    ensures MatchAt(a + "-" + b, 0) == Some((DigitsValue(a), DigitsValue(b)))
  {
    var s := a + "-" + b;
    FirstGroup(a, b);
    SecondGroup(a, b);
    JoinedParts(a, '-', b);
    MatchAtRuns(s, 0, |a|, |s|, a, b);
  }

  lemma LabelStripped(a: string, b: string)
    requires a != [] && b != [] && AllDigits(a) && AllDigits(b)
    ensures Strip(a + "-" + b) == a + "-" + b
  {
    var s := a + "-" + b;
    assert IsDigit(s[0]) && IsDigit(s[|s| - 1]);
    StripOfStripped(s);
  }

  lemma RangeSearch(a: string, b: string)
    requires a != [] && b != [] && AllDigits(a) && AllDigits(b)
    ensures SearchRange(a + "-" + b, 0) == Some((DigitsValue(a), DigitsValue(b)))
  {
    RangeMatch(a, b);
  }

  lemma StringBinMid(s: string, x: nat, y: nat)
    requires Strip(s) == s && SearchRange(s, 0) == Some((x, y))
    ensures ParseBinMid(VStr(s)) == Fin((x as real + y as real) / 2.0)
  {
    var v := VStr(s);
    assert !IsNa(v) && NumberOf(v).None? && Str(v) == s;
  }

  lemma RangeSearchNat(x: nat, y: nat)
    ensures SearchRange(NatToString(x) + "-" + NatToString(y), 0) == Some((x, y))
  {
    RangeSearch(NatToString(x), NatToString(y));
    DigitsOfNat(x);
    DigitsOfNat(y);
  }

  /** A bin label "x-y" parses to its midpoint. */
  lemma BinLabelMid(x: nat, y: nat)
    ensures ParseBinMid(VStr(NatToString(x) + "-" + NatToString(y))) == Fin((x as real + y as real) / 2.0)
  {
    LabelStripped(NatToString(x), NatToString(y));
    RangeSearchNat(x, y);
    StringBinMid(NatToString(x) + "-" + NatToString(y), x, y);
  }

  /** `get_num(row, col, bin_col)`: the float value of `col`, else the midpoint of `bin_col`. */
  function GetNum(row: Record, col: string, binCol: string): (r: Float)
    ensures var v := if col in row then row[col] else VFloat(NaN);
            !IsNa(v) && FloatOf(v).Some? ==> r == FloatOf(v).value
    ensures var v := if col in row then row[col] else VFloat(NaN);
            (IsNa(v) || FloatOf(v).None?) ==>
              r == (if binCol != "" then ParseBinMid(Get(row, binCol)) else NaN)
  {
    var v := if col in row then row[col] else VFloat(NaN);
    if !IsNa(v) && FloatOf(v).Some? then FloatOf(v).value
    else if binCol != "" then ParseBinMid(Get(row, binCol))
    else NaN
  }

  // ---------------------------------------------------------------------
  // Frames and row selection

  /** One frame row: its parsed `dt` and its cells. */
  datatype DRow = DRow(dt: Dt, cols: Record)

  /** A data frame: its column labels and its rows. */
  datatype Frame = Frame(columns: set<string>, rows: seq<DRow>)

  /** A cell; a column a row does not carry reads as NaN. */
  function Cell(r: DRow, c: string): Value
  {
    if c in r.cols then r.cols[c] else VFloat(NaN)
  }

  /** `df[c].astype(str)` at one row. */
  function CellStr(r: DRow, c: string): string
  {
    Str(Cell(r, c))
  }

  /** `sort_values("dt")` order: ascending months, NaT last. */
  predicate DtSortLe(a: DRow, b: DRow)
  {
    b.dt.NaT? || (a.dt.Month? && !DtLt(b.dt, a.dt))
  }

  lemma DtSortOrder()
    ensures Total(DtSortLe) && Transitive(DtSortLe)
  {
  }

  /** `sort_values("dt").iloc[-1]`: a row no other row sorts after. */
  function LastByDt(rows: seq<DRow>): (r: DRow)
    requires rows != []
    ensures r in rows
    ensures forall x :: x in rows ==> DtSortLe(x, r)
  {
    var sorted := SortBy(rows, DtSortLe);
    DtSortOrder();
    SortBySorted(rows, DtSortLe);
    var last := sorted[|sorted| - 1];
    assert last in multiset(rows);
    forall x | x in rows ensures DtSortLe(x, last) {
      assert x in multiset(sorted);
      var i :| 0 <= i < |sorted| && sorted[i] == x;
      if i == |sorted| - 1 {
        assert DtSortLe(x, x) || DtSortLe(x, x);
      }
    }
    last
  }

  /** The rows `pick_latest_row` chooses among, after its 업종 and key filters. */
  function Candidates(f: Frame, upjong: Option<Value>, keyCol: string, keyVal: Value): (q: seq<DRow>)
    ensures forall r :: r in q ==> r in f.rows
    ensures upjong.Some? && "업종" in f.columns ==> forall r :: r in q ==> CellStr(r, "업종") == Str(upjong.value)
    ensures keyCol != "" && keyCol in f.columns ==> forall r :: r in q ==> CellStr(r, keyCol) == Str(keyVal)
  {
    var q1 := if upjong.Some? && "업종" in f.columns
              then Filter(f.rows, (r: DRow) => CellStr(r, "업종") == Str(upjong.value))
              else f.rows;
    if keyCol != "" && keyCol in f.columns then Filter(q1, (r: DRow) => CellStr(r, keyCol) == Str(keyVal))
    else q1
  }

  /** A chosen row (None is the empty Series) and how it was chosen. */
  datatype Pick = Pick(row: Option<DRow>, tag: string)

  /** `pick_latest_row(df, dt_target, upjong, key_col, key_val)`; "" stands for a missing key column. */
  function PickLatestRow(f: Frame, target: Dt, upjong: Option<Value>, keyCol: string, keyVal: Value): (p: Pick)
    ensures var q := Candidates(f, upjong, keyCol, keyVal);
            (p.tag == "no_match_condition" <==> q == []) && (p.row.None? <==> q == [])
    ensures var q := Candidates(f, upjong, keyCol, keyVal);
            (p.tag == "match_same_dt" <==> exists r :: r in q && DtEq(r.dt, target))
    ensures p.tag == "match_same_dt" ==> p.row.Some? && DtEq(p.row.value.dt, target)
    ensures var q := Candidates(f, upjong, keyCol, keyVal);
            p.tag == "fallback_past_dt" ==>
              && (forall r :: r in q ==> !DtEq(r.dt, target))
              && p.row.Some? && DtLt(p.row.value.dt, target)
              && forall r :: r in q && DtLt(r.dt, target) ==> !DtLt(p.row.value.dt, r.dt)
    ensures var q := Candidates(f, upjong, keyCol, keyVal);
            p.tag == "fallback_latest_any" ==>
              && (forall r :: r in q ==> !DtEq(r.dt, target) && !DtLt(r.dt, target))
              && p.row.Some? && forall r :: r in q ==> DtSortLe(r, p.row.value)
    ensures p.row.Some? ==> p.row.value in Candidates(f, upjong, keyCol, keyVal)
    ensures p.tag in {"no_match_condition", "match_same_dt", "fallback_past_dt", "fallback_latest_any"}
  {
    var q := Candidates(f, upjong, keyCol, keyVal);
    if q == [] then Pick(None, "no_match_condition")
    else
      var same := Filter(q, (r: DRow) => DtEq(r.dt, target));
      if same != [] then
        Pick(Some(LastByDt(same)), "match_same_dt")
      else
        var past := Filter(q, (r: DRow) => DtLt(r.dt, target));
        if past != [] then
          Pick(Some(LastByDt(past)), "fallback_past_dt")
        else
          Pick(Some(LastByDt(q)), "fallback_latest_any")
  }

  /** `tail(n)`: the last n rows. */
  function Tail<T>(s: seq<T>, n: nat): (r: seq<T>)
    ensures |r| == (if |s| < n then |s| else n) && r == s[|s| - |r|..]
  {
    if |s| <= n then s else s[|s| - n..]
  }

  /** `pick_peers`' outcome; the KeyError is a frame without 업종 or 상권_지리. */
  datatype PeerPick = Peers(rows: seq<DRow>, tag: string) | PeersKeyError

  /** The rows of the same industry and trade area. */
  function PeerBase(f: Frame, upjong: Value, tradeKey: Value): seq<DRow>
  {
    Filter(f.rows, (r: DRow) => CellStr(r, "업종") == Str(upjong) && CellStr(r, "상권_지리") == Str(tradeKey))
  }

  /** How many rows `tail(9999)` keeps. */
  const PeerCap: nat := 9999

  /** The tail of a sorted sequence is sorted, comes from it, and every row before it sorts no later than the rows in it. */
  lemma TailOfSorted<T>(s: seq<T>, n: nat, rel: (T, T) -> bool)
    requires Pairwise(s, rel)
    ensures Pairwise(Tail(s, n), rel)
    ensures multiset(Tail(s, n)) <= multiset(s)
    ensures multiset(s) == multiset(s[..|s| - |Tail(s, n)|]) + multiset(Tail(s, n))
    ensures forall i, j :: 0 <= i < |s| - |Tail(s, n)| <= j < |s| ==> rel(s[i], s[j])
  {
    var k := |s| - |Tail(s, n)|;
    assert s == s[..k] + Tail(s, n);
    forall i, j | 0 <= i < j < |Tail(s, n)| ensures rel(Tail(s, n)[i], Tail(s, n)[j]) {
      assert Tail(s, n)[i] == s[k + i] && Tail(s, n)[j] == s[k + j];
    }
  }

  /**
   * `sort_values("dt").tail(9999)`: the rows in dt order, all of them when
   * there are at most 9999, otherwise 9999 of them.
   */
  function SortedTail(rows: seq<DRow>): (t: seq<DRow>)
    ensures |t| == (if |rows| < PeerCap then |rows| else PeerCap)
    ensures multiset(t) <= multiset(rows)
    ensures |rows| <= PeerCap ==> multiset(t) == multiset(rows)
    ensures Pairwise(t, DtSortLe)
    ensures forall r :: r in t ==> r in rows
    ensures t == [] <==> rows == []
  {
    var sorted := SortBy(rows, DtSortLe);
    DtSortOrder();
    SortBySorted(rows, DtSortLe);
    TailOfSorted(sorted, PeerCap, DtSortLe);
    var t := Tail(sorted, PeerCap);
    assert forall r :: r in t ==> r in multiset(sorted);
    t
  }

  /** What `Tail` drops from a sorted sequence comes before, in rel, all it keeps. */
  lemma TailKeepsLast<T>(s: seq<T>, n: nat, rel: (T, T) -> bool)
    requires Pairwise(s, rel)
    ensures forall x, y :: x in multiset(s) - multiset(Tail(s, n)) && y in Tail(s, n) ==> rel(x, y)
  {
    TailOfSorted(s, n, rel);
    var t := Tail(s, n);
    var k := |s| - |t|;
    forall x, y | x in multiset(s) - multiset(t) && y in t ensures rel(x, y) {
      assert x in multiset(s[..k]);
      var i :| 0 <= i < k && s[..k][i] == x;
      var j :| 0 <= j < |t| && t[j] == y;
      assert s[i] == x && s[k + j] == y;
    }
  }

  /** The rows `tail(9999)` drops sort no later than any row it keeps: it keeps the latest months. */
  lemma SortedTailKeepsLatest(rows: seq<DRow>)
    ensures forall x, y :: x in multiset(rows) - multiset(SortedTail(rows)) && y in SortedTail(rows) ==> DtSortLe(x, y)
  {
    var sorted := SortBy(rows, DtSortLe);
    DtSortOrder();
    SortBySorted(rows, DtSortLe);
    TailKeepsLast(sorted, PeerCap, DtSortLe);
    assert SortedTail(rows) == Tail(sorted, PeerCap);
  }

  /** The rows of the base at the target month. */
  function SameRows(base: seq<DRow>, target: Dt): seq<DRow>
  {
    Filter(base, (r: DRow) => DtEq(r.dt, target))
  }

  /** The rows of the base before the target month. */
  function PastRows(base: seq<DRow>, target: Dt): seq<DRow>
  {
    Filter(base, (r: DRow) => DtLt(r.dt, target))
  }

  /**
   * The fallback chain of `pick_peers` over the rows that match industry and
   * trade area: the rows at the target month; else the latest 9999 earlier
   * rows in dt order; else the latest 9999 rows of all.
   */
  function PeersOf(base: seq<DRow>, target: Dt): (p: PeerPick)
    ensures p.Peers?
    ensures forall r :: r in p.rows ==> r in base
    ensures p.rows == [] <==> base == []
    ensures p.tag == "peer_no_key_match" <==> base == []
    ensures p.tag == "peer_same_dt" <==> exists r :: r in base && DtEq(r.dt, target)
    ensures p.tag == "peer_same_dt" ==> p.rows == SameRows(base, target)
    ensures p.tag == "peer_same_dt" ==> forall r :: r in base ==> (r in p.rows <==> DtEq(r.dt, target))
    ensures p.tag == "peer_past_dt" <==>
              base != [] && (forall r :: r in base ==> !DtEq(r.dt, target)) && exists r :: r in base && DtLt(r.dt, target)
    ensures p.tag == "peer_past_dt" ==> p.rows == SortedTail(PastRows(base, target))
    ensures p.tag == "peer_past_dt" ==> forall r :: r in p.rows ==> DtLt(r.dt, target)
    ensures p.tag == "peer_latest_any" <==>
              base != [] && forall r :: r in base ==> !DtEq(r.dt, target) && !DtLt(r.dt, target)
    ensures p.tag == "peer_latest_any" ==> p.rows == SortedTail(base)
  {
    if base == [] then Peers(base, "peer_no_key_match")
    else
      var same := SameRows(base, target);
      if same != [] then
        assert same[0] in same;
        Peers(same, "peer_same_dt")
      else
        var past := PastRows(base, target);
        if past != [] then
          assert past[0] in past;
          Peers(SortedTail(past), "peer_past_dt")
        else Peers(SortedTail(base), "peer_latest_any")
  }

  /** `pick_peers(df, dt_target, upjong, trade_key)`. */
  function PickPeers(f: Frame, target: Dt, upjong: Value, tradeKey: Value): (p: PeerPick)
    ensures p.PeersKeyError? <==> "업종" !in f.columns || "상권_지리" !in f.columns
    ensures p.Peers? ==> p == PeersOf(PeerBase(f, upjong, tradeKey), target)
  {
    if "업종" !in f.columns || "상권_지리" !in f.columns then PeersKeyError
    else PeersOf(PeerBase(f, upjong, tradeKey), target)
  }

  // ---------------------------------------------------------------------
  // compute_context

  /** The greatest month among the rows, NaT when every row is NaT (`dt.dropna().max()`). */
  function MaxDt(rows: seq<DRow>): (m: Dt)
    ensures m.NaT? <==> forall r :: r in rows ==> r.dt.NaT?
    ensures m.Month? ==> (exists r :: r in rows && r.dt == m) && forall r :: r in rows ==> !DtLt(m, r.dt)
  {
    if rows == [] then NaT
    else
      var t := MaxDt(rows[1..]);
      assert forall r :: r in rows[1..] ==> r in rows;
      if rows[0].dt.NaT? || (t.Month? && !DtLt(t, rows[0].dt)) then t
      else rows[0].dt
  }

  /** `row.get(c, "")` turned into text: "" when the frame lacks the column. */
  function RowText(f: Frame, r: DRow, c: string): string
  {
    if c in f.columns then CellStr(r, c) else ""
  }

  datatype Context =
    | Context(dfm: seq<DRow>, rowNow: DRow, peers: PeerPick, trRow: Pick, dnRow: Pick)
    | NoStoreRows(message: string)

  function StoreRowsOf(fr: Frame, storeId: string): seq<DRow>
  {
    Filter(fr.rows, (r: DRow) => CellStr(r, "MCT_KEY") == storeId)
  }

  /** The store's current row: the first at its greatest month, or its only NaT-sorted last row. */
  function RowNow(dfm: seq<DRow>): (r: DRow)
    requires dfm != []
    ensures r in dfm
    ensures forall x :: x in dfm && x.dt.Month? ==> r.dt.Month? && !DtLt(r.dt, x.dt)
  {
    var latest := MaxDt(dfm);
    var cand := Filter(dfm, (x: DRow) => DtEq(x.dt, latest));
    if cand != [] then cand[0] else LastByDt(dfm)
  }

  /** `compute_context(fr, bz, ad, store_id)`. */
  function ComputeContext(fr: Frame, bz: Frame, ad: Frame, storeId: string): (c: Context)
    ensures c.NoStoreRows? <==> StoreRowsOf(fr, storeId) == []
    ensures c.NoStoreRows? ==> c.message == "선택한 가맹점(" + storeId + ") 데이터가 없습니다."
    ensures c.Context? ==> c.dfm == StoreRowsOf(fr, storeId) && c.rowNow in c.dfm
    ensures c.Context? ==> forall x :: x in c.dfm && x.dt.Month? ==> c.rowNow.dt.Month? && !DtLt(c.rowNow.dt, x.dt)
  {
    var dfm := StoreRowsOf(fr, storeId);
    if dfm == [] then NoStoreRows("선택한 가맹점(" + storeId + ") 데이터가 없습니다.")
    else
      var rowNow := RowNow(dfm);
      var upjong := RowText(fr, rowNow, "업종");
      var tradeKey := RowText(fr, rowNow, "상권_지리");
      var dongKey := RowText(fr, rowNow, "행정동_norm");
      Context(dfm, rowNow,
              PickPeers(fr, rowNow.dt, VStr(upjong), VStr(tradeKey)),
              PickLatestRow(bz, rowNow.dt, Some(VStr(upjong)), "상권_지리", VStr(tradeKey)),
              PickLatestRow(ad, rowNow.dt, Some(VStr(upjong)), "행정동_norm", VStr(dongKey)))
  }

  /** A dated row is among the peers picked with its own industry and trade area. */
  lemma PeersKeepRow(f: Frame, r: DRow)
    requires "업종" in f.columns && "상권_지리" in f.columns
    requires r in f.rows && r.dt.Month?
    ensures var p := PickPeers(f, r.dt, VStr(CellStr(r, "업종")), VStr(CellStr(r, "상권_지리")));
            p.Peers? && r in p.rows
  {
    var upjong := VStr(CellStr(r, "업종"));
    var tradeKey := VStr(CellStr(r, "상권_지리"));
    assert r in PeerBase(f, upjong, tradeKey);
    assert DtEq(r.dt, r.dt);
  }

  /** The store's own dated row is always among its peers: `pick_peers` never drops the store. */
  lemma ContextKeepsStore(fr: Frame, bz: Frame, ad: Frame, storeId: string)
    requires "업종" in fr.columns && "상권_지리" in fr.columns
    requires ComputeContext(fr, bz, ad, storeId).Context?
    requires ComputeContext(fr, bz, ad, storeId).rowNow.dt.Month?
    ensures var c := ComputeContext(fr, bz, ad, storeId);
            c.peers.Peers? && c.rowNow in c.peers.rows
  {
    var dfm := StoreRowsOf(fr, storeId);
    var r := RowNow(dfm);
    assert ComputeContext(fr, bz, ad, storeId).peers ==
           PickPeers(fr, r.dt, VStr(RowText(fr, r, "업종")), VStr(RowText(fr, r, "상권_지리")));
    assert r in fr.rows;
    PeersKeepRow(fr, r);
  }

  // ---------------------------------------------------------------------
  // pct_rank

  /** `pd.to_numeric(series, errors="coerce").dropna()`. */
  function Numbers(series: seq<Value>): (s: seq<real>)
    ensures |s| <= |series|
  {
    if series == [] then []
    else
      var rest := Numbers(series[1..]);
      match FloatOf(series[0])
      case Some(Fin(x)) => [x] + rest
      case _ => rest
  }

  /** How many of s lie strictly below v. */
  function CountBelow(s: seq<real>, v: real): (n: nat)
    ensures n <= |s|
  {
    if s == [] then 0 else (if s[0] < v then 1 else 0) + CountBelow(s[1..], v)
  }

  /** The nested `pct_rank(series, val)` of `build_radar_and_minibars`. */
  function PctRank(series: seq<Value>, val: Float): (r: Float)
    ensures r.NaN? <==> Numbers(series) == [] || val.NaN?
    ensures r.Fin? ==> 0.0 <= r.r <= 100.0
  {
    var s := Numbers(series);
    if s == [] || val.NaN? then NaN
    else
      var c := CountBelow(s, val.r);
      PercentBounds(c as real, |s| as real);
      Fin(100.0 * c as real / |s| as real)
  }

  /** A share of at most the whole is a percentage in [0, 100]. */
  lemma PercentBounds(c: real, n: real)
    requires 0.0 <= c <= n && n > 0.0
    ensures 0.0 <= 100.0 * c / n <= 100.0
  {
    ScaleMonotone(c, n, n);
    ScaleMonotone(0.0, c, n);
  }

  lemma {:induction false} CountBelowMonotone(s: seq<real>, a: real, b: real)
    requires a <= b
    ensures CountBelow(s, a) <= CountBelow(s, b)
  {
    if s != [] {
      CountBelowMonotone(s[1..], a, b);
    }
  }

  /** A larger value never ranks lower among the same peers. */
  lemma PctRankMonotone(series: seq<Value>, a: real, b: real)
    requires a <= b && Numbers(series) != []
    ensures PctRank(series, Fin(a)).r <= PctRank(series, Fin(b)).r
  {
    var s := Numbers(series);
    CountBelowMonotone(s, a, b);
    ScaleMonotone(CountBelow(s, a) as real, CountBelow(s, b) as real, |s| as real);
  }

  lemma ScaleMonotone(x: real, y: real, n: real)
    requires x <= y && n > 0.0
    ensures 100.0 * x / n <= 100.0 * y / n
  {
    assert 100.0 * y / n - 100.0 * x / n == 100.0 * (y - x) / n;
  }

  /** A value above every peer ranks 100, one at or below every peer ranks 0. */
  lemma {:induction false} CountBelowExtremes(s: seq<real>, v: real)
    ensures (forall x :: x in s ==> x < v) ==> CountBelow(s, v) == |s|
    ensures (forall x :: x in s ==> v <= x) ==> CountBelow(s, v) == 0
  {
    if s != [] {
      CountBelowExtremes(s[1..], v);
      assert s[0] in s;
      assert forall x :: x in s[1..] ==> x in s;
    }
  }
}
