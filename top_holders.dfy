/**
 * The top-holder concentration check of `TokenAnalyzer.check_top_holders`
 * (bot.py:87-95): collect every holder's `percentage`, sort them largest first,
 * sum the first ten and accept when that sum is at most 40. Any exception
 * (a holder without a percentage, a value that is not a number, a `holders`
 * value that cannot be iterated) is caught and rejects.
 */
module TopHolders {
  import opened PyValues

  /** The concentration bound, in percent. */
  const MaxTopTenShare: real := 40.0

  /** How many of the largest holders are summed. */
  const TopCount: nat := 10

  predicate Descending(s: seq<real>) {
    forall i, j :: 0 <= i < j < |s| ==> s[i] >= s[j]
  }

  function Sum(s: seq<real>): real {
    if s == [] then 0.0 else s[0] + Sum(s[1..])
  }

  /** Places `x` into the descending sequence `s`. */
  function Insert(x: real, s: seq<real>): (r: seq<real>)
    requires Descending(s)
    ensures Descending(r)
    ensures multiset(r) == multiset(s) + multiset{x}
    ensures |r| == |s| + 1
  {
    if s == [] || x >= s[0] then [x] + s
    else
      var tail := Insert(x, s[1..]);
      assert s == [s[0]] + s[1..];
      HeadBoundsInsert(x, s, tail);
      ConsDescending(s[0], tail);
      [s[0]] + tail
  }

  lemma HeadBoundsInsert(x: real, s: seq<real>, tail: seq<real>)
    requires Descending(s) && s != [] && x < s[0]
    requires multiset(tail) == multiset(s[1..]) + multiset{x}
    ensures forall k :: 0 <= k < |tail| ==> s[0] >= tail[k]
  {
    forall k | 0 <= k < |tail| ensures s[0] >= tail[k] {
      assert tail[k] in multiset(tail);
      if tail[k] != x {
        assert tail[k] in multiset(s[1..]);
        var j :| 0 <= j < |s[1..]| && s[1..][j] == tail[k];
        assert s[1 + j] == tail[k];
      }
    }
  }

  lemma ConsDescending(h: real, t: seq<real>)
    requires Descending(t)
    requires forall k :: 0 <= k < |t| ==> h >= t[k]
    ensures Descending([h] + t)
  {
    var r := [h] + t;
    forall i, j | 0 <= i < j < |r| ensures r[i] >= r[j] {
      assert r[j] == t[j - 1];
      if i > 0 {
        assert r[i] == t[i - 1];
      }
    }
  }

  /** `sorted(s, reverse=True)`. */
  function SortDesc(s: seq<real>): (r: seq<real>)
    ensures Descending(r)
    ensures multiset(r) == multiset(s)
    ensures |r| == |s|
  {
    if s == [] then []
    else
      assert s == [s[0]] + s[1..];
      Insert(s[0], SortDesc(s[1..]))
  }

  /** `sorted(s, reverse=True)[:10]`. */
  function TopTen(s: seq<real>): seq<real> {
    var d := SortDesc(s);
    if |d| <= TopCount then d else d[..TopCount]
  }

  /** `sum(sorted(s, reverse=True)[:10])`, with exact arithmetic. */
  function TopTenSum(s: seq<real>): real {
    Sum(TopTen(s))
  }

  /** The list comprehension `[h['percentage'] for h in holders]`, element by element. */
  function PercentageList(hs: seq<Json>): Result<seq<Json>> {
    if hs == [] then Ok([])
    else
      var p :- Lookup(hs[0], "percentage");
      var rest :- PercentageList(hs[1..]);
      Ok([p] + rest)
  }

  /**
   * The comprehension over whatever `holders` is: iterating a dict yields its
   * keys and iterating a string its characters, and a key or a character
   * subscripted with 'percentage' raises TypeError, so only an empty dict or
   * an empty string gets through; null, numbers and bools are not iterable.
   */
  function HolderPercentages(holders: Json): (r: Result<seq<Json>>)
    ensures holders.JNull? || holders.JBool? || holders.JNum? ==> r.Err?
  {
    match holders
    case JArr(hs) => PercentageList(hs)
    case JObj(f) => if f == map[] then Ok([]) else Err(TypeError)
    case JStr(s) => if s == "" then Ok([]) else Err(TypeError)
    case _ => Err(TypeError)
  }

  /**
   * The numbers among the percentages, or TypeError when one is not a number:
   * `sorted` raises on a list mixing numbers with anything else, and when no
   * entry is a number the slice is non-empty and `sum`'s `0 + x` raises.
   */
  function Numbers(vs: seq<Json>): (r: Result<seq<real>>)
    ensures r.Ok? ==> |r.value| == |vs|
    ensures r.Ok? <==> forall i :: 0 <= i < |vs| ==> NumOf(vs[i]).Some?
    ensures r.Ok? ==> forall i :: 0 <= i < |vs| ==> r.value[i] == NumOf(vs[i]).value
  {
    if vs == [] then Ok([])
    else
      var x :- if NumOf(vs[0]).Some? then Ok(NumOf(vs[0]).value) else Err(TypeError);
      var rest :- Numbers(vs[1..]);
      Ok([x] + rest)
  }

  /** `check_top_holders(holders)`. */
  function CheckTopHolders(holders: Json): (ok: bool)
    ensures ok ==> HolderPercentages(holders).Ok?
    ensures ok ==> Numbers(HolderPercentages(holders).value).Ok?
  {
    var top10 :=
      var vs :- HolderPercentages(holders);
      var ps :- Numbers(vs);
      Ok(TopTenSum(ps));
    match top10
    case Ok(s) => s <= MaxTopTenShare
    case Err(_) => false
  }

  /** A holder record `{"percentage": p}`. */
  function Holder(p: real): Json {
    JObj(map["percentage" := JNum(p)])
  }

  /** The holders list `[{"percentage": p} for p in ps]`. */
  function Holders(ps: seq<real>): (r: Json)
    ensures r.JArr? && |r.items| == |ps|
    ensures forall i :: 0 <= i < |ps| ==> r.items[i] == Holder(ps[i])
  {
    JArr(seq(|ps|, i requires 0 <= i < |ps| => Holder(ps[i])))
  }

  function Repeat(x: real, n: nat): (r: seq<real>)
    ensures |r| == n
    ensures forall i :: 0 <= i < n ==> r[i] == x
  {
    if n == 0 then [] else [x] + Repeat(x, n - 1)
  }

  // ---------------------------------------------------------------------------
  // Sorting and summing

  lemma {:induction false} SumConcat(a: seq<real>, b: seq<real>)
    ensures Sum(a + b) == Sum(a) + Sum(b)
  {
    if a == [] {
      assert a + b == b;
    } else {
      assert (a + b)[1..] == a[1..] + b;
      SumConcat(a[1..], b);
    }
  }

  lemma {:induction false} SumInsert(x: real, s: seq<real>)
    requires Descending(s)
    ensures Sum(Insert(x, s)) == x + Sum(s)
  {
    if s == [] || x >= s[0] {
      assert ([x] + s)[1..] == s;
    } else {
      assert ([s[0]] + Insert(x, s[1..]))[1..] == Insert(x, s[1..]);
      SumInsert(x, s[1..]);
    }
  }

  /** Sorting does not change the sum. */
  lemma {:induction false} SumSortDesc(s: seq<real>)
    ensures Sum(SortDesc(s)) == Sum(s)
  {
    if s != [] {
      SumSortDesc(s[1..]);
      SumInsert(s[0], SortDesc(s[1..]));
    }
  }

  /** The first element of a non-empty descending sequence is its largest. */
  lemma HeadIsMax(s: seq<real>, x: real)
    requires Descending(s) && x in multiset(s)
    ensures s[0] >= x
  {
    var i :| 0 <= i < |s| && s[i] == x;
  }

  /** A descending sequence is determined by its multiset of elements. */
  lemma {:induction false} DescendingUnique(a: seq<real>, b: seq<real>)
    requires Descending(a) && Descending(b)
    requires multiset(a) == multiset(b)
    ensures a == b
  {
    if a != [] {
      assert |b| == |a| by {
        assert |multiset(a)| == |a| && |multiset(b)| == |b|;
      }
      assert a[0] in multiset(b);
      assert b[0] in multiset(a);
      HeadIsMax(a, b[0]);
      HeadIsMax(b, a[0]);
      assert a[0] == b[0];
      assert a == [a[0]] + a[1..];
      assert b == [b[0]] + b[1..];
      assert multiset(a) == multiset{a[0]} + multiset(a[1..]);
      assert multiset(b) == multiset{b[0]} + multiset(b[1..]);
      assert multiset(a[1..]) == multiset(a) - multiset{a[0]};
      assert multiset(b[1..]) == multiset(b) - multiset{b[0]};
      DescendingUnique(a[1..], b[1..]);
    }
  }

  // ---------------------------------------------------------------------------
  // What the sum of the ten largest means

  /**
   * The order of the holders list does not matter: two lists with the same
   * percentages, in any order, have the same top-ten sum.
   */
  lemma TopTenSumOrderIndependent(a: seq<real>, b: seq<real>)
    requires multiset(a) == multiset(b)
    ensures TopTen(a) == TopTen(b)
    ensures TopTenSum(a) == TopTenSum(b)
  {
    DescendingUnique(SortDesc(a), SortDesc(b));
  }

  /**
   * `TopTen` holds ten of the percentages (all of them when there are fewer),
   * and none of the percentages left out is larger than one taken.
   */
  lemma TopTenAreLargest(s: seq<real>)
    ensures |TopTen(s)| == if |s| < TopCount then |s| else TopCount
    ensures multiset(TopTen(s)) <= multiset(s)
    ensures forall x, y ::
      x in multiset(TopTen(s)) && y in multiset(s) - multiset(TopTen(s)) ==> x >= y
  {
    var d := SortDesc(s);
    var n := |TopTen(s)|;
    assert d == d[..n] + d[n..];
    assert TopTen(s) == d[..n];
    assert multiset(s) == multiset(d[..n]) + multiset(d[n..]);
    forall x, y | x in multiset(TopTen(s)) && y in multiset(s) - multiset(TopTen(s))
      ensures x >= y
    {
      var i :| 0 <= i < n && d[..n][i] == x;
      assert y in multiset(d[n..]);
      var j :| 0 <= j < |d| - n && d[n..][j] == y;
      assert d[i] >= d[n + j];
    }
  }

  /** With at most ten holders the check sums all of them. */
  lemma FewHoldersSumAll(s: seq<real>)
    requires |s| <= TopCount
    ensures TopTenSum(s) == Sum(s)
  {
    SumSortDesc(s);
  }

  lemma {:induction false} SumAtLeastElement(s: seq<real>, k: nat)
    requires k < |s|
    requires forall i :: 0 <= i < |s| ==> s[i] >= 0.0
    ensures Sum(s) >= s[k]
  {
    if k > 0 {
      SumAtLeastElement(s[1..], k - 1);
    } else if |s| > 1 {
      SumAtLeastElement(s[1..], 0);
    }
  }

  lemma SortDescNonNegative(s: seq<real>)
    requires forall i :: 0 <= i < |s| ==> s[i] >= 0.0
    ensures forall j :: 0 <= j < |s| ==> SortDesc(s)[j] >= 0.0
  {
    var d := SortDesc(s);
    forall j | 0 <= j < |d| ensures d[j] >= 0.0 {
      assert d[j] in multiset(s);
    }
  }

  /**
   * With non-negative percentages, a list that passes has no single holder
   * above the bound.
   */
  lemma EachHolderWithinBound(s: seq<real>)
    requires forall i :: 0 <= i < |s| ==> s[i] >= 0.0
    requires TopTenSum(s) <= MaxTopTenShare
    ensures forall i :: 0 <= i < |s| ==> s[i] <= MaxTopTenShare
  {
    if s != [] {
      var d := SortDesc(s);
      var top := TopTen(s);
      SortDescNonNegative(s);
      assert top[0] == d[0];
      assert forall j :: 0 <= j < |top| ==> top[j] == d[j];
      SumAtLeastElement(top, 0);
      AllAtMostHead(d, s);
    }
  }

  /** Every element of `s` is at most the head of a descending `d` with the same elements. */
  lemma AllAtMostHead(d: seq<real>, s: seq<real>)
    requires Descending(d) && multiset(d) == multiset(s) && d != []
    ensures forall i :: 0 <= i < |s| ==> s[i] <= d[0]
  {
    forall i | 0 <= i < |s| ensures s[i] <= d[0] {
      assert s[i] in multiset(d);
      HeadIsMax(d, s[i]);
    }
  }

  lemma {:induction false} SumRepeat(x: real, n: nat)
    ensures Sum(Repeat(x, n)) == n as real * x
  {
    if n > 0 {
      assert Repeat(x, n)[1..] == Repeat(x, n - 1);
      SumRepeat(x, n - 1);
    }
  }

  // ---------------------------------------------------------------------------
  // check_top_holders on the decoded holders value

  /**
   * `hs` are holder records, each a dict whose `percentage` is the matching
   * number of `ps`; other keys of a record, such as `address`, are allowed.
   */
  predicate RecordsOf(hs: seq<Json>, ps: seq<real>) {
    && |hs| == |ps|
    && forall k :: 0 <= k < |hs| ==>
         hs[k].JObj? && "percentage" in hs[k].fields && hs[k].fields["percentage"] == JNum(ps[k])
  }

  lemma {:induction false} PercentageListOfRecords(hs: seq<Json>, ps: seq<real>)
    requires RecordsOf(hs, ps)
    ensures PercentageList(hs) == Ok(seq(|ps|, i requires 0 <= i < |ps| => JNum(ps[i])))
  {
    var vs := seq(|ps|, i requires 0 <= i < |ps| => JNum(ps[i]));
    if hs != [] {
      assert RecordsOf(hs[1..], ps[1..]) by {
        assert forall k :: 0 <= k < |hs| - 1 ==> hs[1..][k] == hs[k + 1] && ps[1..][k] == ps[k + 1];
      }
      PercentageListOfRecords(hs[1..], ps[1..]);
      assert Lookup(hs[0], "percentage") == Ok(JNum(ps[0]));
      assert vs == [JNum(ps[0])] + seq(|ps[1..]|, i requires 0 <= i < |ps[1..]| => JNum(ps[1..][i]));
    }
  }

  /**
   * A list of holder records passes exactly when its ten largest percentages
   * sum to at most 40.
   */
  lemma CheckHolderRecords(hs: seq<Json>, ps: seq<real>)
    requires RecordsOf(hs, ps)
    ensures CheckTopHolders(JArr(hs)) <==> TopTenSum(ps) <= MaxTopTenShare
  {
    PercentageListOfRecords(hs, ps);
    NumbersOfJNums(ps);
  }

  /** The same for the records `{"percentage": p}` built by `Holders`. */
  lemma CheckWellFormedHolders(ps: seq<real>)
    ensures CheckTopHolders(Holders(ps)) <==> TopTenSum(ps) <= MaxTopTenShare
  {
    assert RecordsOf(Holders(ps).items, ps);
    CheckHolderRecords(Holders(ps).items, ps);
  }

  lemma NumbersOfJNums(ps: seq<real>)
    ensures Numbers(seq(|ps|, i requires 0 <= i < |ps| => JNum(ps[i]))) == Ok(ps)
  {
    var vs := seq(|ps|, i requires 0 <= i < |ps| => JNum(ps[i]));
    assert forall i :: 0 <= i < |vs| ==> NumOf(vs[i]) == Some(ps[i]);
    assert Numbers(vs).value == ps;
  }

  /** An empty holders list passes: its sum is 0. */
  lemma EmptyHoldersPass()
    ensures CheckTopHolders(JArr([]))
    ensures TopTenSum([]) == 0.0
  {
  }

  lemma {:induction false} PercentageListFails(hs: seq<Json>, k: nat)
    requires k < |hs| && Lookup(hs[k], "percentage").Err?
    ensures PercentageList(hs).Err?
  {
    if k > 0 {
      PercentageListFails(hs[1..], k - 1);
    }
  }

  lemma {:induction false} PercentageListAt(hs: seq<Json>, k: nat)
    requires k < |hs| && PercentageList(hs).Ok?
    ensures |PercentageList(hs).value| == |hs|
    ensures Lookup(hs[k], "percentage").Ok?
    ensures PercentageList(hs).value[k] == Lookup(hs[k], "percentage").value
  {
    if k > 0 {
      PercentageListAt(hs[1..], k - 1);
    } else if |hs| > 1 {
      PercentageListAt(hs[1..], 0);
    }
  }

  /**
   * Fail closed: a holder that is not a record with a numeric `percentage`
   * (missing, null, a string, ...) makes the whole check fail.
   */
  lemma MalformedHolderRejected(hs: seq<Json>, k: nat)
    requires k < |hs|
    requires Lookup(hs[k], "percentage").Err? || NumOf(Lookup(hs[k], "percentage").value).None?
    ensures !CheckTopHolders(JArr(hs))
  {
    if Lookup(hs[k], "percentage").Err? {
      PercentageListFails(hs, k);
    } else if PercentageList(hs).Ok? {
      PercentageListAt(hs, k);
    }
  }

  /** `n` holders with the same percentage `x`, at most ten of them, pass iff `n * x` is at most 40. */
  lemma UniformHolders(x: real, n: nat)
    requires n <= TopCount
    ensures CheckTopHolders(Holders(Repeat(x, n))) <==> n as real * x <= MaxTopTenShare
  {
    var s := Repeat(x, n);
    CheckWellFormedHolders(s);
    FewHoldersSumAll(s);
    SumRepeat(x, n);
  }

  /** Ten holders at 5% each sum to 50 and fail. */
  lemma TenHoldersAtFivePercentFail()
    ensures !CheckTopHolders(Holders(Repeat(5.0, 10)))
  {
    UniformHolders(5.0, 10);
  }

  /** Ten holders at 3% each sum to 30 and pass. */
  lemma TenHoldersAtThreePercentPass()
    ensures CheckTopHolders(Holders(Repeat(3.0, 10)))
  {
    UniformHolders(3.0, 10);
  }
}
