/** Helpers of the legacy Python server, later/Server/Utilities.py:
    `unexpected`, `stringify_dict` and the length guard of
    `convert_string_to_datetime`.

    Python values are named by the few kinds these helpers tell apart. The
    JSON rendering of a dictionary's values and of its quoted keys, and
    `strptime`, are inputs. */
module Utilities {
  import opened Common

  // ---------------------------------------------------------------------
  // unexpected
  // ---------------------------------------------------------------------

  /** A Python value, as far as `unexpected` can tell it apart. */
  datatype PyValue =
    | PyStr(s: string)
    | PyInt(i: int)
    | PyFloat(r: real)
    | PyBool(b: bool)
    | PyNone
    | PyOther(repr: string)   // a list, dict or other object

  /** Python `==` against the integer 0: `0`, `0.0` and `False` are all
      equal to it. */
  predicate EqualsZero(v: PyValue) {
    v == PyInt(0) || v == PyFloat(0.0) || v == PyBool(false)
  }

  /** `unexpected(string)`: membership in `["undefined", None, "", 0, '[]']`,
      which compares with `==`. */
  function Unexpected(v: PyValue): (r: bool)
    ensures v.PyStr? ==> (r <==> v.s in {"undefined", "", "[]"})
    ensures v.PyNone? ==> r
    ensures v.PyOther? ==> !r
  {
    v == PyStr("undefined") || v == PyNone || v == PyStr("") || EqualsZero(v) || v == PyStr("[]")
  }

  /** The five listed values are unexpected, and so are `False` and `0.0`,
      which equal `0`; "null" and "[ ]" are not. */
  lemma UnexpectedValues()
    ensures Unexpected(PyStr("undefined")) && Unexpected(PyNone) && Unexpected(PyStr(""))
    ensures Unexpected(PyInt(0)) && Unexpected(PyStr("[]"))
    ensures Unexpected(PyBool(false)) && Unexpected(PyFloat(0.0))
    ensures !Unexpected(PyStr("null")) && !Unexpected(PyStr("[ ]")) && !Unexpected(PyInt(1))
    ensures !Unexpected(PyBool(true))
  {
  }

  // ---------------------------------------------------------------------
  // stringify_dict
  // ---------------------------------------------------------------------

  /** Python's order on `str`: code point by code point, a proper prefix
      first. */
  predicate StrLess(a: string, b: string)
    decreases |a|
  {
    if a == [] then b != []
    else if b == [] then false
    else if a[0] == b[0] then StrLess(a[1..], b[1..])
    else a[0] < b[0]
  }

  lemma {:induction false} StrLessIrreflexive(a: string)
    ensures !StrLess(a, a)
    decreases |a|
  {
    if a != [] {
      StrLessIrreflexive(a[1..]);
    }
  }

  lemma {:induction false} StrLessAsymmetric(a: string, b: string)
    ensures !(StrLess(a, b) && StrLess(b, a))
    decreases |a|
  {
    if a != [] && b != [] && a[0] == b[0] {
      StrLessAsymmetric(a[1..], b[1..]);
    }
  }

  lemma {:induction false} StrLessTotal(a: string, b: string)
    requires a != b
    ensures StrLess(a, b) || StrLess(b, a)
    decreases |a|
  {
    if a != [] && b != [] && a[0] == b[0] {
      assert a == [a[0]] + a[1..] && b == [b[0]] + b[1..];
      StrLessTotal(a[1..], b[1..]);
    }
  }

  lemma {:induction false} StrLessTransitive(a: string, b: string, c: string)
    requires StrLess(a, b) && StrLess(b, c)
    ensures StrLess(a, c)
    decreases |a|
  {
    if a != [] && b != [] && c != [] && a[0] == b[0] && b[0] == c[0] {
      StrLessTransitive(a[1..], b[1..], c[1..]);
    }
  }

  /** A dictionary, as its (key, rendered value) entries in insertion
      order. */
  type Entry = (string, string)

  predicate DistinctKeys(d: seq<Entry>) {
    forall i, j :: 0 <= i < j < |d| ==> d[i].0 != d[j].0
  }

  predicate SortedByKey(d: seq<Entry>) {
    forall i, j :: 0 <= i < j < |d| ==> StrLess(d[i].0, d[j].0)
  }

  function Insert(e: Entry, d: seq<Entry>): (r: seq<Entry>)
    ensures multiset(r) == multiset(d) + multiset{e}
    ensures |r| == |d| + 1
    decreases |d|
  {
    if d == [] then [e]
    else if StrLess(e.0, d[0].0) then [e] + d
    else assert d == [d[0]] + d[1..]; [d[0]] + Insert(e, d[1..])
  }

  lemma {:induction false} InsertSorted(e: Entry, d: seq<Entry>)
    requires SortedByKey(d)
    requires forall i :: 0 <= i < |d| ==> d[i].0 != e.0
    ensures SortedByKey(Insert(e, d))
    decreases |d|
  {
    if d == [] {
    } else if StrLess(e.0, d[0].0) {
      forall k | 0 <= k < |d| ensures StrLess(e.0, d[k].0) {
        if k > 0 { StrLessTransitive(e.0, d[0].0, d[k].0); }
      }
    } else {
      StrLessTotal(e.0, d[0].0);
      InsertSorted(e, d[1..]);
      var r := Insert(e, d[1..]);
      forall k | 0 <= k < |r| ensures StrLess(d[0].0, r[k].0) {
        assert r[k] in multiset(r);
        if r[k] != e {
          assert r[k] in multiset(d[1..]);
          var m :| 0 <= m < |d[1..]| && d[1..][m] == r[k];
          assert d[1..][m] == d[m + 1];
        }
      }
      var out := [d[0]] + r;
      forall i, j | 0 <= i < j < |out| ensures StrLess(out[i].0, out[j].0) {
        if i > 0 { assert out[i] == r[i - 1] && out[j] == r[j - 1]; }
      }
    }
  }

  /** The entries in key order (`sort_keys=True`). */
  function SortByKey(d: seq<Entry>): (r: seq<Entry>)
    ensures multiset(r) == multiset(d)
    ensures |r| == |d|
    decreases |d|
  {
    if d == [] then [] else assert d == [d[0]] + d[1..]; Insert(d[0], SortByKey(d[1..]))
  }

  lemma {:induction false} SortByKeySorted(d: seq<Entry>)
    requires DistinctKeys(d)
    ensures SortedByKey(SortByKey(d))
    decreases |d|
  {
    if d != [] {
      SortByKeySorted(d[1..]);
      var s := SortByKey(d[1..]);
      forall i | 0 <= i < |s| ensures s[i].0 != d[0].0 {
        assert s[i] in multiset(d[1..]);
        var m :| 0 <= m < |d[1..]| && d[1..][m] == s[i];
        assert d[1..][m] == d[m + 1];
      }
      InsertSorted(d[0], s);
    }
  }

  /** Two key-sorted sequences with the same entries start alike. */
  lemma SortedHeadsEqual(a: seq<Entry>, b: seq<Entry>)
    requires SortedByKey(a) && SortedByKey(b) && multiset(a) == multiset(b) && a != []
    ensures b != [] && a[0] == b[0]
  {
    assert a[0] in multiset(b);
    var j :| 0 <= j < |b| && b[j] == a[0];
    assert b[0] in multiset(a);
    var i :| 0 <= i < |a| && a[i] == b[0];
    if a[0] != b[0] {
      StrLessAsymmetric(a[0].0, b[0].0);
      assert false;
    }
  }

  lemma TailMultiset(a: seq<Entry>)
    requires a != []
    ensures multiset(a[1..]) == multiset(a) - multiset{a[0]}
  {
    assert a == [a[0]] + a[1..];
  }

  /** Two key-sorted sequences with the same entries are equal. */
  lemma {:induction false} SortedUnique(a: seq<Entry>, b: seq<Entry>)
    requires SortedByKey(a) && SortedByKey(b) && multiset(a) == multiset(b)
    ensures a == b
    decreases |a|
  {
    if a != [] {
      SortedHeadsEqual(a, b);
      TailMultiset(a);
      TailMultiset(b);
      SortedUnique(a[1..], b[1..]);
      assert a == [a[0]] + a[1..] && b == [b[0]] + b[1..];
    }
  }

  /** One `"key":value` member; `quote` renders a key as a JSON string. */
  function Member(e: Entry, quote: string -> string): string {
    quote(e.0) + ":" + e.1
  }

  function Members(d: seq<Entry>, quote: string -> string): (r: seq<string>)
    ensures |r| == |d|
    ensures forall k :: 0 <= k < |d| ==> r[k] == Member(d[k], quote)
    decreases |d|
  {
    if d == [] then [] else [Member(d[0], quote)] + Members(d[1..], quote)
  }

  /** `stringify_dict(d)`: `json.dumps(d, sort_keys=True,
      separators=(',', ':'))`. */
  function StringifyDict(d: seq<Entry>, quote: string -> string): (r: string)
    ensures |r| >= 2 && r[0] == '{' && r[|r| - 1] == '}'
    ensures d == [] ==> r == "{}"
  {
    "{" + Join(Members(SortByKey(d), quote), ",") + "}"
  }

  /** The members come out in key order, and the text depends only on the
      dictionary's contents, not on the order its keys were inserted in:
      two dictionaries with the same entries give the same text. */
  lemma StringifyOrderIndependent(d1: seq<Entry>, d2: seq<Entry>, quote: string -> string)
    requires DistinctKeys(d1) && DistinctKeys(d2) && multiset(d1) == multiset(d2)
    ensures SortedByKey(SortByKey(d1))
    ensures StringifyDict(d1, quote) == StringifyDict(d2, quote)
  {
    SortByKeySorted(d1);
    SortByKeySorted(d2);
    SortedUnique(SortByKey(d1), SortByKey(d2));
  }

  // ---------------------------------------------------------------------
  // convert_string_to_datetime
  // ---------------------------------------------------------------------

  /** The `strptime` format. */
  const DateFormat: string := "%Y-%m-%d %H:%M:%S"

  /** The length of a date rendered in that format, e.g.
      "2023-10-05 12:00:00". */
  const RenderedDateLength: nat := 19

  datatype Conversion<D> = Parsed(value: D) | ValueError(message: string)

  function LengthError<D>(input: string): Conversion<D> {
    ValueError("Incorrect string format: " + IntToString(|input|) + ".  Correct format is " + DateFormat)
  }

  /** `convert_string_to_datetime(input)` as written: the guard compares
      the input's length with the length of the FORMAT string, 17, before
      `strptime` decides. */
  function ConvertStringToDatetime<D>(input: string, strptime: string -> Conversion<D>): (r: Conversion<D>)
    ensures |input| != |DateFormat| ==> r == LengthError(input)
    ensures |input| == |DateFormat| ==> r == strptime(input)
  {
    if |input| != |DateFormat| then LengthError(input) else strptime(input)
  }

  /** As written, every date rendered in the format is refused before it
      is parsed, whatever the parser would make of it: the guard's length
      is 17, a rendered date has 19 characters. */
  lemma RenderedDateRefused<D>(strptime: string -> Conversion<D>)
    ensures |DateFormat| == 17
    ensures ConvertStringToDatetime("2023-10-05 12:00:00", strptime) == LengthError("2023-10-05 12:00:00")
  {
    assert |"2023-10-05 12:00:00"| == 19;
  }

  /** `convert_string_to_datetime` with the guard it evidently intends:
      the length of a rendered date. */
  function ConvertStringToDatetimeCorrected<D>(input: string, strptime: string -> Conversion<D>): (r: Conversion<D>)
    ensures |input| != RenderedDateLength ==> r == LengthError(input)
    ensures |input| == RenderedDateLength ==> r == strptime(input)
  {
    if |input| != RenderedDateLength then LengthError(input) else strptime(input)
  }

  /** With the corrected guard a rendered date reaches the parser, and the
      outcome is the parser's; any other length is refused whatever the
      parser would say, with the length in the message. */
  lemma CorrectedGuardPassesRenderedDates<D>(input: string, p1: string -> Conversion<D>, p2: string -> Conversion<D>)
    ensures |input| == RenderedDateLength ==> ConvertStringToDatetimeCorrected(input, p1) == p1(input)
    ensures ConvertStringToDatetimeCorrected("2023-10-05 12:00:00", p1) == p1("2023-10-05 12:00:00")
    ensures |input| != RenderedDateLength ==>
              ConvertStringToDatetimeCorrected(input, p1) == ConvertStringToDatetimeCorrected(input, p2)
  {
    assert |"2023-10-05 12:00:00"| == 19;
  }
}
