/** The Python values that the two loading scripts handle, and the library calls
    they make, as far as the scripts depend on them. Library calls whose inner
    workings are not modelled (str, int, float, json.loads, ast.literal_eval,
    pandas.to_datetime) are parameters bundled in a `Runtime`. */
module Python {

  datatype Option<+T> = None | Some(value: T)

  /** A Python float: a finite value (its binary rounding is not modelled), an infinity, or NaN. */
  datatype Float = Finite(r: real) | Inf(negative: bool) | NaN

  /** A dynamically typed value: a frame cell, or a document produced by a parser. */
  datatype Value =
    | VNone                                // None (JSON null)
    | VBool(b: bool)
    | VInt(i: int)                         // int, unbounded as in Python
    | VFloat(f: Float)
    | VStr(s: string)
    | VTime(ns: int)                       // a pandas Timestamp
    | VNaT                                 // pandas NaT, what a failed datetime parse gives
    | VList(items: seq<Value>)             // list
    | VIterable(items: seq<Value>)         // any other iterable: tuple, numpy array, set, ...
    | VDict(entries: seq<(Value, Value)>)  // dict, as its (key, value) pairs in insertion order

  /** The outcome of a conversion call such as int(x) or float(x): a value, a
      ValueError or TypeError, or any other exception (OverflowError, ...). */
  datatype Conv<+T> = Converted(value: T) | ValueOrTypeError | OtherError

  /** The library calls the scripts make on values. */
  datatype Runtime = Runtime(
    toStr: Value -> string,                // str(x), also Series.astype(str) cell by cell
    toInt: Value -> Conv<int>,             // int(x)
    toFloat: Value -> Conv<Float>,         // float(x)
    jsonLoads: string -> Option<Value>,    // json.loads(s); None when it raises
    literalEval: string -> Option<Value>,  // ast.literal_eval(s); None when it raises
    toDatetime: Value -> Option<int>)      // pandas.to_datetime(x, errors='coerce'); None is NaT

  /** dict.get(key) for a string key: the value stored under the first entry
      with that key (dict keys are unique), None when there is none. */
  function Get(entries: seq<(Value, Value)>, key: string): Value
    decreases |entries|
  {
    if entries == [] then VNone
    else if entries[0].0 == VStr(key) then entries[0].1
    else Get(entries[1..], key)
  }

  /** Get returns a value stored under the key, and None when the key is absent. */
  lemma {:induction false} GetFindsKey(entries: seq<(Value, Value)>, key: string)
    ensures (forall k :: 0 <= k < |entries| ==> entries[k].0 != VStr(key)) ==> Get(entries, key) == VNone
    ensures (exists k :: 0 <= k < |entries| && entries[k].0 == VStr(key)) ==>
              (VStr(key), Get(entries, key)) in entries
    decreases |entries|
  {
    if entries != [] && entries[0].0 != VStr(key) {
      GetFindsKey(entries[1..], key);
      assert forall k :: 1 <= k < |entries| ==> entries[k] == entries[1..][k - 1];
      if exists k :: 0 <= k < |entries| && entries[k].0 == VStr(key) {
        var k :| 0 <= k < |entries| && entries[k].0 == VStr(key);
        assert entries[1..][k - 1].0 == VStr(key);
      }
    }
  }

  /** str.isspace for one character: the characters str.strip() removes by default. */
  predicate IsSpace(c: char) {
    var n := c as int;
    n == 0x20 || 0x09 <= n <= 0x0d || 0x1c <= n <= 0x1f || n == 0x85 || n == 0xa0 ||
    n == 0x1680 || 0x2000 <= n <= 0x200a || n == 0x2028 || n == 0x2029 ||
    n == 0x202f || n == 0x205f || n == 0x3000
  }

  /** Index of the first character of s[i..] that is not white space (|s| if none). */
  function SkipSpaces(s: string, i: nat): (k: nat)
    requires i <= |s|
    decreases |s| - i
    ensures i <= k <= |s|
    ensures forall m :: i <= m < k ==> IsSpace(s[m])
    ensures k < |s| ==> !IsSpace(s[k])
  {
    if i == |s| || !IsSpace(s[i]) then i else SkipSpaces(s, i + 1)
  }

  /** One past the last character of s[lo..j] that is not white space (lo if none). */
  function BackSpaces(s: string, lo: nat, j: nat): (k: nat)
    requires lo <= j <= |s|
    decreases j - lo
    ensures lo <= k <= j
    ensures forall m :: k <= m < j ==> IsSpace(s[m])
    ensures k > lo ==> !IsSpace(s[k - 1])
  {
    if j == lo || !IsSpace(s[j - 1]) then j else BackSpaces(s, lo, j - 1)
  }

  /** str.strip(): s without its leading and trailing white space. */
  function Strip(s: string): (t: string)
    ensures |t| <= |s|
    ensures t != [] ==> !IsSpace(t[0]) && !IsSpace(t[|t| - 1])
    ensures t == [] <==> forall m :: 0 <= m < |s| ==> IsSpace(s[m])
    ensures SkipSpaces(s, 0) + |t| <= |s| && t == s[SkipSpaces(s, 0)..SkipSpaces(s, 0) + |t|]
    ensures forall m :: SkipSpaces(s, 0) + |t| <= m < |s| ==> IsSpace(s[m])
  {
    var i := SkipSpaces(s, 0);
    var j := BackSpaces(s, i, |s|);
    assert s[i..j] == s[i..i + |s[i..j]|];
    s[i..j]
  }

  /** str.replace("'", '"'): every single quote becomes a double quote. */
  function ReplaceQuotes(s: string): (t: string)
    ensures |t| == |s|
    ensures forall m :: 0 <= m < |s| ==> t[m] == if s[m] == '\'' then '"' else s[m]
  {
    seq(|s|, m requires 0 <= m < |s| => if s[m] == '\'' then '"' else s[m])
  }

  /** list(v): the items of an iterable, None (a TypeError) for anything else.
      Iterating a str gives its characters and iterating a dict gives its keys. */
  function ToList(v: Value): (r: Option<seq<Value>>)
    ensures v.VList? || v.VIterable? ==> r == Some(v.items)
    ensures v.VStr? ==> r.Some? && |r.value| == |v.s|
    ensures v.VStr? ==> forall m :: 0 <= m < |v.s| ==> r.value[m] == VStr([v.s[m]])
    ensures v.VDict? ==> r.Some? && |r.value| == |v.entries|
    ensures v.VDict? ==> forall m :: 0 <= m < |v.entries| ==> r.value[m] == v.entries[m].0
    ensures !(v.VList? || v.VIterable? || v.VStr? || v.VDict?) ==> r == None
  {
    match v
    case VList(xs) => Some(xs)
    case VIterable(xs) => Some(xs)
    case VStr(s) => Some(seq(|s|, m requires 0 <= m < |s| => VStr([s[m]])))
    case VDict(es) => Some(seq(|es|, m requires 0 <= m < |es| => es[m].0))
    case _ => None
  }

  /** int(x) of a real x: truncation toward zero. */
  function Trunc(x: real): (n: int)
    ensures x >= 0.0 ==> 0 <= n && n as real <= x < n as real + 1.0
    ensures x < 0.0 ==> n <= 0 && n as real - 1.0 < x <= n as real
  {
    if x >= 0.0 then x.Floor else -((-x).Floor)
  }

  /** int(f) of a float f: OverflowError for an infinity, ValueError for NaN. */
  function IntOfFloat(f: Float): (r: Conv<int>)
    ensures f.Finite? ==> r == Converted(Trunc(f.r))
    ensures f.Inf? ==> r == OtherError
    ensures f.NaN? ==> r == ValueOrTypeError
  {
    match f
    case Finite(x) => Converted(Trunc(x))
    case Inf(_) => OtherError
    case NaN => ValueOrTypeError
  }

  /** What pandas.notnull reports as missing: None, NaT and float NaN. */
  predicate IsNull(v: Value) {
    v.VNone? || v.VNaT? || v == VFloat(NaN)
  }

  /** frame.astype(object).where(pandas.notnull(frame), None), for one cell. */
  function NullToNone(v: Value): (w: Value)
    ensures IsNull(v) <==> w == VNone
    ensures !IsNull(v) ==> w == v
  {
    if IsNull(v) then VNone else v
  }
}
