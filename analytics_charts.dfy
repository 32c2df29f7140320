/** frontend/src/components/AnalyticsCharts.tsx: the chart data derived from a report. The bar
    chart has one bar per booking; the pie chart has one slice per status, sized by the number
    of bookings with that status, and the slices take the five colours in turn. */
module AnalyticsCharts {

  /** One row of a report's `bookings` (frontend/src/api/reportsApi.ts `ReportData`). */
  datatype ReportBooking = ReportBooking(
    bookingId: int, propertyName: string, startDate: string, endDate: string, price: int, status: string)

  datatype Bar = Bar(name: string, revenue: int)

  /** Lines 28-31: one bar per booking, in the report's order. */
  function RevenueByProperty(bookings: seq<ReportBooking>): (r: seq<Bar>)
    ensures |r| == |bookings|
    ensures forall i :: 0 <= i < |r| ==> r[i].name == bookings[i].propertyName && r[i].revenue == bookings[i].price
  {
    seq(|bookings|, i requires 0 <= i < |bookings| => Bar(bookings[i].propertyName, bookings[i].price))
  }

  // ---------------------------------------------------------------------------------------
  // The status tally.

  /** The object the fold builds: its entries in insertion order. `Object.entries` lists
      string keys that way; keys that read as array indices would come first in numeric
      order, which no booking status text does. */
  type Tally = seq<(string, nat)>

  function Keys(t: Tally): (r: seq<string>)
    ensures |r| == |t| && forall i :: 0 <= i < |t| ==> r[i] == t[i].0
  {
    if t == [] then [] else [t[0].0] + Keys(t[1..])
  }

  predicate DistinctKeys(t: Tally) {
    forall i, j :: 0 <= i < j < |t| ==> t[i].0 != t[j].0
  }

  predicate Positive(t: Tally) {
    forall i :: 0 <= i < |t| ==> t[i].1 > 0
  }

  /** `acc[k] || 0`: the count stored under `k`, 0 when there is none. */
  function Lookup(t: Tally, k: string): (n: nat)
    ensures k !in Keys(t) ==> n == 0
    ensures Positive(t) && k in Keys(t) ==> n > 0
  {
    if t == [] then 0 else if t[0].0 == k then t[0].1 else Lookup(t[1..], k)
  }

  function Total(t: Tally): nat {
    if t == [] then 0 else t[0].1 + Total(t[1..])
  }

  /** One step of the fold, `acc[s] = (acc[s] || 0) + 1`: an existing key keeps its place,
      a new key is appended with count 1, and the counts add up to one more. */
  function Bump(t: Tally, s: string): (r: Tally)
    ensures s in Keys(t) ==> Keys(r) == Keys(t)
    ensures s !in Keys(t) ==> r == t + [(s, 1)]
    ensures Total(r) == Total(t) + 1
  {
    if t == [] then [(s, 1)]
    else if t[0].0 == s then [(s, t[0].1 + 1)] + t[1..]
    else [t[0]] + Bump(t[1..], s)
  }

  /** The count of `s` goes up by one and every other count stays. */
  lemma {:induction false} BumpLookup(t: Tally, s: string, k: string)
    ensures Lookup(Bump(t, s), k) == Lookup(t, k) + (if k == s then 1 else 0)
  {
    if t != [] && t[0].0 != s {
      BumpLookup(t[1..], s, k);
      assert Bump(t, s)[1..] == Bump(t[1..], s);
    }
  }

  /** Bumping keeps the keys distinct and the counts positive. */
  lemma {:induction false} BumpKeeps(t: Tally, s: string)
    requires DistinctKeys(t) && Positive(t)
    ensures DistinctKeys(Bump(t, s)) && Positive(Bump(t, s))
  {
    if s in Keys(t) {
      var i :| 0 <= i < |Keys(t)| && Keys(t)[i] == s;
      BumpAt(t, s, i);
    } else {
      BumpAppends(t, s);
    }
  }

  /** Appending a key that is not present keeps the keys distinct and the counts positive. */
  lemma BumpAppends(t: Tally, s: string)
    requires DistinctKeys(t) && Positive(t) && s !in Keys(t)
    ensures DistinctKeys(t + [(s, 1)]) && Positive(t + [(s, 1)])
  {
    var r := t + [(s, 1)];
    forall a, b | 0 <= a < b < |r| ensures r[a].0 != r[b].0 {
      if b == |t| {
        assert r[a] == t[a] && Keys(t)[a] == t[a].0;
      }
    }
  }

  /** With distinct keys, bumping a present key changes only its count. */
  lemma {:induction false} BumpAt(t: Tally, s: string, i: int)
    requires DistinctKeys(t) && 0 <= i < |t| && t[i].0 == s
    ensures Bump(t, s) == t[i := (s, t[i].1 + 1)]
  {
    var u := t[i := (s, t[i].1 + 1)];
    if i > 0 {
      var later := t[1..];
      assert t[0].0 != s;
      assert Bump(t, s) == [t[0]] + Bump(later, s);
      DistinctTail(t);
      BumpAt(later, s, i - 1);
      assert later[i - 1 := (s, t[i].1 + 1)] == u[1..];
      assert u == [t[0]] + u[1..];
    } else {
      assert t[1..] == u[1..];
    }
  }

  lemma DistinctTail(t: Tally)
    requires DistinctKeys(t) && t != []
    ensures DistinctKeys(t[1..])
  {
    var later := t[1..];
    forall a, b | 0 <= a < b < |later| ensures later[a].0 != later[b].0 {
      assert later[a] == t[a + 1] && later[b] == t[b + 1];
    }
  }

  /** The number of bookings with status `s`. */
  function Count(bookings: seq<ReportBooking>, s: string): nat {
    if bookings == [] then 0
    else Count(bookings[..|bookings| - 1], s) + (if bookings[|bookings| - 1].status == s then 1 else 0)
  }

  /** Lines 34-37: the fold over the bookings from the empty object. */
  function Distribution(bookings: seq<ReportBooking>): (r: Tally)
    ensures Total(r) == |bookings|
  {
    if bookings == [] then []
    else Bump(Distribution(bookings[..|bookings| - 1]), bookings[|bookings| - 1].status)
  }

  /** Each status that occurs is a key exactly once, holding the number of bookings with that
      status, and no other key is present. */
  lemma {:induction false} DistributionFacts(bookings: seq<ReportBooking>)
    ensures forall k :: Lookup(Distribution(bookings), k) == Count(bookings, k)
    ensures forall k :: k in Keys(Distribution(bookings)) <==> exists b :: b in bookings && b.status == k
    ensures DistinctKeys(Distribution(bookings)) && Positive(Distribution(bookings))
  {
    if bookings != [] {
      var init := bookings[..|bookings| - 1];
      var last := bookings[|bookings| - 1];
      assert bookings == init + [last];
      DistributionFacts(init);
      var t := Distribution(init);
      forall k ensures Lookup(Bump(t, last.status), k) == Count(bookings, k) {
        BumpLookup(t, last.status, k);
      }
      BumpKeeps(t, last.status);
      forall k ensures k in Keys(Bump(t, last.status)) <==> k in Keys(t) || k == last.status {
        BumpKeys(t, last.status, k);
      }
    }
  }

  lemma BumpKeys(t: Tally, s: string, k: string)
    ensures k in Keys(Bump(t, s)) <==> k in Keys(t) || k == s
  {
    if s !in Keys(t) {
      assert Keys(Bump(t, s)) == Keys(t) + [s];
    }
  }

  /** A status present in a booking and one present in none. */
  lemma DistributionLookup(bookings: seq<ReportBooking>, s: string)
    ensures (exists b :: b in bookings && b.status == s) <==> Lookup(Distribution(bookings), s) > 0
  {
    DistributionFacts(bookings);
  }

  /** The tally keeps the order in which statuses first appear: a booking whose status is new
      appends it, and later bookings never move it. */
  lemma DistributionOrder(bookings: seq<ReportBooking>, b: ReportBooking)
    ensures (exists x :: x in bookings && x.status == b.status) ==>
              Keys(Distribution(bookings + [b])) == Keys(Distribution(bookings))
    ensures (forall x :: x in bookings ==> x.status != b.status) ==>
              Distribution(bookings + [b]) == Distribution(bookings) + [(b.status, 1)]
  {
    assert (bookings + [b])[..|bookings|] == bookings;
    DistributionFacts(bookings);
  }

  // ---------------------------------------------------------------------------------------
  // The pie chart.

  datatype Slice = Slice(name: string, value: nat)

  /** Lines 39-42: one slice per entry of the tally. */
  function StatusData(t: Tally): (r: seq<Slice>)
    ensures |r| == |t|
    ensures forall i :: 0 <= i < |r| ==> r[i] == Slice(t[i].0, t[i].1)
  {
    if t == [] then [] else [Slice(t[0].0, t[0].1)] + StatusData(t[1..])
  }

  function Names(slices: seq<Slice>): (r: seq<string>)
    ensures |r| == |slices| && forall i :: 0 <= i < |r| ==> r[i] == slices[i].name
  {
    seq(|slices|, i requires 0 <= i < |slices| => slices[i].name)
  }

  /** The slices of a report: one per status that occurs, never two for one status, each sized
      by the number of bookings with that status. */
  lemma {:induction false} StatusSlices(bookings: seq<ReportBooking>)
    ensures var slices := StatusData(Distribution(bookings));
            (forall s :: (exists b :: b in bookings && b.status == s) <==> s in Names(slices)) &&
            (forall i, j :: 0 <= i < j < |slices| ==> slices[i].name != slices[j].name) &&
            (forall i :: 0 <= i < |slices| ==> slices[i].value == Count(bookings, slices[i].name) > 0)
  {
    DistributionFacts(bookings);
    var t := Distribution(bookings);
    var slices := StatusData(t);
    forall i | 0 <= i < |slices| ensures slices[i].value == Count(bookings, slices[i].name) {
      LookupAt(t, i);
    }
    assert Names(slices) == Keys(t);
  }

  /** In a tally with distinct keys, the count found for the `i`-th key is the `i`-th count. */
  lemma {:induction false} LookupAt(t: Tally, i: int)
    requires DistinctKeys(t) && 0 <= i < |t|
    ensures Lookup(t, t[i].0) == t[i].1
  {
    if i > 0 {
      assert t[0].0 != t[i].0;
      LookupAt(t[1..], i - 1);
    }
  }

  const Colors: seq<string> := ["#0088FE", "#00C49F", "#FFBB28", "#FF8042", "#8884D8"]

  /** Line 93: the colour of slice `i`. */
  function SliceColor(i: nat): (c: string)
    ensures c in Colors
  {
    Colors[i % |Colors|]
  }

  /** The fill of every cell of the pie, one per slice. */
  function Cells(slices: seq<Slice>): (r: seq<string>)
    ensures |r| == |slices|
    ensures forall i :: 0 <= i < |r| ==> r[i] == SliceColor(i)
  {
    seq(|slices|, i requires 0 <= i < |slices| => SliceColor(i))
  }

  /** The colours repeat every five slices, and any five consecutive slices all differ. */
  lemma ColorCycle(i: nat, j: nat)
    ensures SliceColor(i + 5) == SliceColor(i)
    ensures i < j < i + 5 ==> SliceColor(i) != SliceColor(j)
  {
    if i < j < i + 5 {
      var d := j - i;
      assert j == i + d;
      assert j % 5 == (i % 5 + d) % 5;
      if i % 5 + d < 5 {
        assert j % 5 == i % 5 + d;
      } else {
        assert j % 5 == i % 5 + d - 5;
      }
    }
  }
}
