/** The village list of `src/pages/desa/index.js`: `safeGetData` on the list reply,
    and the filter effect, which narrows all villages first by a case-insensitive
    search on the name and then by province. */
module DesaIndex {
  import opened Js

  /** A JSON value that is either an array of records or an object that may carry one
      under `data`, or nothing at all. */
  datatype Response<T> = ArrayValue(items: seq<T>) | ObjectValue(data: Option<seq<T>>) | NoValue

  /** `safeGetData(response)` */
  function SafeGetData<T>(response: Response<T>): (xs: seq<T>)
    ensures response.ArrayValue? ==> xs == response.items
    ensures response.ObjectValue? && response.data.Some? ==> xs == response.data.value
    ensures response.NoValue? || (response.ObjectValue? && response.data.None?) ==> xs == []
  {
    match response
    case ArrayValue(items) => items
    case ObjectValue(data) => OrEmpty(data)
    case NoValue => []
  }

  /** A scalar JSON field, compared with JavaScript's loose `==`. */
  datatype Scalar = Num(n: int) | Str(s: string) | Null

  /** `v == s` for a string `s`: strings compare as strings, a number compares with
      `Number(s)`, and `null` equals no string. */
  predicate LooseEquals(v: Scalar, s: string)
    ensures v.Null? ==> !LooseEquals(v, s)
    ensures v.Str? ==> (LooseEquals(v, s) <==> v.s == s)
    ensures v.Num? && LooseEquals(v, s) ==> ToNumber(s) == Some(v.n)
  {
    match v
    case Str(t) => t == s
    case Num(n) => ToNumber(s) == Some(n)
    case Null => false
  }

  /** A province id held as a number matches the select's string value of it, and also
      that value padded with white space, which strict equality would reject. */
  lemma LooseEqualsNumericId(n: int)
    ensures LooseEquals(Num(n), IntToString(n))
    ensures LooseEquals(Num(n), " " + IntToString(n) + " ")
    ensures !LooseEquals(Null, IntToString(n))
  {
    ToNumberOfIntToString(n);
    PaddedNumber(n);
  }

  /** `Number(" " + String(n) + " ") === n`. */
  lemma PaddedNumber(n: int)
    ensures ToNumber(" " + IntToString(n) + " ") == Some(n)
  {
    var s := IntToString(n);
    ToNumberOfIntToString(n);
    IntToStringUnpadded(n);
    PaddedTrim(s);
    SameTrimSameNumber(" " + s + " ", s);
  }

  lemma SameTrimSameNumber(a: string, b: string)
    requires Trim(a) == Trim(b)
    ensures ToNumber(a) == ToNumber(b)
  {
  }

  lemma PaddedTrim(s: string)
    requires s != [] ==> !IsSpace(s[0]) && !IsSpace(s[|s| - 1])
    ensures Trim(" " + s + " ") == Trim(s)
  {
    assert IsSpace(' ');
    assert " " + s + " " == [' '] + (s + " ");
    TrimStartSpace(' ', s + " ");
    if s == [] {
      assert s + " " == [' '] + [];
      TrimStartSpace(' ', []);
    } else {
      assert (s + " ")[0] == s[0];
      assert (s + " ")[..|s|] == s;
    }
    TrimOfUnpadded(s);
  }

  /** A village record, with the fields the filter reads. */
  datatype Desa = Desa(id: string, namaDesa: string, idProvinsi: Scalar)

  /** `array.filter(f)` */
  function FilterBy<T>(xs: seq<T>, f: T -> bool): (r: seq<T>)
    ensures |r| <= |xs|
    decreases |xs|
  {
    if xs == [] then []
    else if f(xs[|xs| - 1]) then FilterBy(xs[..|xs| - 1], f) + [xs[|xs| - 1]]
    else FilterBy(xs[..|xs| - 1], f)
  }

  /** `d.nama_desa.toLowerCase().includes(searchTerm.toLowerCase())` */
  function SearchHit(term: string): Desa -> bool {
    (d: Desa) => Contains(ToLower(d.namaDesa), ToLower(term))
  }

  /** `d.id_provinsi == provinsi` */
  function InProvince(provinsi: string): Desa -> bool {
    (d: Desa) => LooseEquals(d.idProvinsi, provinsi)
  }

  /** Whether a village stays listed: each filter applies only when its input is set. */
  predicate Selected(d: Desa, searchTerm: string, provinsi: string) {
    (searchTerm == "" || SearchHit(searchTerm)(d)) && (provinsi == "" || InProvince(provinsi)(d))
  }

  function SelectedBy(searchTerm: string, provinsi: string): Desa -> bool {
    (d: Desa) => Selected(d, searchTerm, provinsi)
  }

  /** The filter effect: a local list narrowed by one `filter` call per criterion set;
      it computes exactly the villages `Selected` keeps, in their order. */
  method FilterDesa(allDesa: seq<Desa>, searchTerm: string, provinsi: string) returns (desa: seq<Desa>)
    ensures desa == FilterBy(allDesa, SelectedBy(searchTerm, provinsi))
  {
    desa := allDesa;
    ghost var f: Desa -> bool := if searchTerm != "" then SearchHit(searchTerm) else (d: Desa) => true;
    ghost var g: Desa -> bool := if provinsi != "" then InProvince(provinsi) else (d: Desa) => true;
    if searchTerm != "" {
      desa := FilterBy(desa, SearchHit(searchTerm));
    } else {
      FilterTrue(allDesa, f);
    }
    assert desa == FilterBy(allDesa, f);
    if provinsi != "" {
      desa := FilterBy(desa, InProvince(provinsi));
    } else {
      FilterTrue(desa, g);
    }
    FilterThen(allDesa, f, g, SelectedBy(searchTerm, provinsi));
  }

  /** Two filters in a row keep what both keep. */
  lemma {:induction false} FilterThen<T>(xs: seq<T>, f: T -> bool, g: T -> bool, h: T -> bool)
    requires forall x :: h(x) == (f(x) && g(x))
    ensures FilterBy(FilterBy(xs, f), g) == FilterBy(xs, h)
    decreases |xs|
  {
    if xs != [] {
      var init := xs[..|xs| - 1];
      FilterThen(init, f, g, h);
      if f(xs[|xs| - 1]) {
        var a := FilterBy(init, f);
        assert (a + [xs[|xs| - 1]])[..|a|] == a;
      }
    }
  }

  /** A filter that keeps everything is the identity. */
  lemma {:induction false} FilterTrue<T>(xs: seq<T>, f: T -> bool)
    requires forall x :: f(x)
    ensures FilterBy(xs, f) == xs
    decreases |xs|
  {
    if xs != [] {
      FilterTrue(xs[..|xs| - 1], f);
    }
  }

  /** What the filter keeps: exactly the elements the predicate holds for. */
  lemma {:induction false} FilterMembers<T>(xs: seq<T>, f: T -> bool)
    ensures forall x :: x in FilterBy(xs, f) <==> x in xs && f(x)
    decreases |xs|
  {
    if xs != [] {
      FilterMembers(xs[..|xs| - 1], f);
      assert xs == xs[..|xs| - 1] + [xs[|xs| - 1]];
    }
  }

  /** `a` is `b` with some elements left out, the rest in their order. */
  ghost predicate SubsequenceOf<T>(a: seq<T>, b: seq<T>) {
    exists idx: seq<nat> :: PicksFrom(idx, a, b)
  }

  /** `a[i]` is `b[idx[i]]`, at strictly rising indices. */
  ghost predicate PicksFrom<T>(idx: seq<nat>, a: seq<T>, b: seq<T>) {
    && |idx| == |a|
    && (forall i :: 0 <= i < |idx| ==> idx[i] < |b| && a[i] == b[idx[i]])
    && (forall i, j :: 0 <= i < j < |idx| ==> idx[i] < idx[j])
  }

  lemma {:induction false} FilterSubsequence<T>(xs: seq<T>, f: T -> bool)
    ensures SubsequenceOf(FilterBy(xs, f), xs)
    decreases |xs|
  {
    if xs == [] {
      var idx: seq<nat> := [];
      assert PicksFrom(idx, FilterBy(xs, f), xs);
    } else {
      var init := xs[..|xs| - 1];
      FilterSubsequence(init, f);
      var a := FilterBy(init, f);
      var idx: seq<nat> :| PicksFrom(idx, a, init);
      if f(xs[|xs| - 1]) {
        var idx' := idx + [|xs| - 1];
        var r := a + [xs[|xs| - 1]];
        assert forall i :: 0 <= i < |idx'| ==> idx'[i] < |xs| && r[i] == xs[idx'[i]];
        assert PicksFrom(idx', r, xs);
      } else {
        assert forall i :: 0 <= i < |idx| ==> idx[i] < |xs| && a[i] == xs[idx[i]];
        assert PicksFrom(idx, a, xs);
      }
    }
  }

  /** The list shown: an order-preserving selection of all villages, holding exactly
      those whose lower-cased name contains the lower-cased term (when a term is set)
      and whose province id loosely equals the chosen one (when one is chosen); with
      neither set, all villages. */
  lemma FilterDesaSpec(allDesa: seq<Desa>, searchTerm: string, provinsi: string)
    ensures var r := FilterBy(allDesa, SelectedBy(searchTerm, provinsi));
            && SubsequenceOf(r, allDesa)
            && (forall d :: d in r <==>
                  d in allDesa &&
                  (searchTerm == "" || Contains(ToLower(d.namaDesa), ToLower(searchTerm))) &&
                  (provinsi == "" || LooseEquals(d.idProvinsi, provinsi)))
            && (searchTerm == "" && provinsi == "" ==> r == allDesa)
  {
    FilterSubsequence(allDesa, SelectedBy(searchTerm, provinsi));
    FilterMembers(allDesa, SelectedBy(searchTerm, provinsi));
    if searchTerm == "" && provinsi == "" {
      FilterTrue(allDesa, SelectedBy(searchTerm, provinsi));
    }
  }

  /** The page: the villages fetched on the server, the two inputs, and the list shown. */
  class DesaIndexPage {
    const allDesa: seq<Desa>
    var searchTerm: string
    var provinsi: string
    var filteredDesa: seq<Desa>

    /** The shown list always follows the inputs. */
    ghost predicate Valid()
      reads this
    {
      filteredDesa == FilterBy(allDesa, SelectedBy(searchTerm, provinsi))
    }

    /** First render and the mount effect. */
    constructor (allDesa: seq<Desa>)
      ensures this.allDesa == allDesa && searchTerm == "" && provinsi == ""
      ensures filteredDesa == allDesa && Valid()
    {
      this.allDesa := allDesa;
      searchTerm := "";
      provinsi := "";
      filteredDesa := allDesa;
      new;
      filteredDesa := FilterDesa(allDesa, "", "");
      FilterTrue(allDesa, SelectedBy("", ""));
    }

    method SetSearchTerm(v: string)
      modifies this
      ensures searchTerm == v && provinsi == old(provinsi) && Valid()
    {
      searchTerm := v;
      filteredDesa := FilterDesa(allDesa, searchTerm, provinsi);
    }

    method SetProvinsi(p: string)
      modifies this
      ensures provinsi == p && searchTerm == old(searchTerm) && Valid()
    {
      provinsi := p;
      filteredDesa := FilterDesa(allDesa, searchTerm, provinsi);
    }
  }
}
