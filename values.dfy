/** Python values as the pipeline passes them around: optional values, numbers that are
    printed back into feedback lines, and insertion-ordered dictionaries with string keys. */
module PyValues {
  import opened Text

  datatype Option<T> = None | Some(value: T)

  /** A Python number as the pipeline produces it: an `int`, or a `float` that carries at most
      one decimal (the scores are rounded to one decimal before they are shown). */
  datatype Num = Int(i: int) | Float(tenths: int) {

    /** The value in tenths, for comparisons against thresholds. */
    function Tenths(): int {
      match this
      case Int(i) => 10 * i
      case Float(t) => t
    }

    /** `str(x)` / `f"{x}"`: an int prints its digits, a float always shows one decimal. */
    function Show(): string {
      match this
      case Int(i) => ShowInt(i)
      case Float(t) =>
        var a := if t < 0 then -t else t;
        (if t < 0 then "-" else "") + ShowNat(a / 10) + "." + [DigitChar(a % 10)]
    }
  }

  /** A Python `dict` with string keys: the pairs in insertion order. */
  type Dict<V> = seq<(string, V)>

  function Keys<V>(d: Dict<V>): (ks: seq<string>)
    ensures |ks| == |d| && forall i :: 0 <= i < |d| ==> ks[i] == d[i].0
  {
    seq(|d|, i requires 0 <= i < |d| => d[i].0)
  }

  predicate HasKey<V>(d: Dict<V>, k: string) {
    exists i :: 0 <= i < |d| && d[i].0 == k
  }

  /** The key invariant every Python dict keeps. */
  predicate UniqueKeys<V>(d: Dict<V>) {
    forall i, j :: 0 <= i < j < |d| ==> d[i].0 != d[j].0
  }

  /** `d.get(k, default)`. */
  function Get<V>(d: Dict<V>, k: string, default: V): (v: V)
    ensures !HasKey(d, k) ==> v == default
  {
    if d == [] then default
    else if d[0].0 == k then d[0].1
    else Get(d[1..], k, default)
  }

  /** `d[k] if k in d else None`: the value of the key, if the key is there. */
  function Find<V>(d: Dict<V>, k: string): Option<V> {
    if d == [] then None
    else if d[0].0 == k then Some(d[0].1)
    else Find(d[1..], k)
  }

  /** Finding a key succeeds exactly when the key is there, and finds what `get` returns. */
  lemma {:induction false} FindGet<V>(d: Dict<V>, k: string, default: V)
    ensures Find(d, k).Some? <==> HasKey(d, k)
    ensures Find(d, k).Some? ==> Find(d, k).value == Get(d, k, default)
  {
    if d != [] {
      FindGet(d[1..], k, default);
      if d[0].0 != k {
        if HasKey(d, k) {
          var i :| 0 <= i < |d| && d[i].0 == k;
          assert d[1..][i - 1].0 == k;
        }
        if HasKey(d[1..], k) {
          var i :| 0 <= i < |d[1..]| && d[1..][i].0 == k;
          assert d[i + 1].0 == k;
        }
      }
    }
  }

  /** The position of key `k`. */
  function IndexOf<V>(d: Dict<V>, k: string): (i: nat)
    requires HasKey(d, k)
    ensures i < |d| && d[i].0 == k
    ensures forall j :: 0 <= j < i ==> d[j].0 != k
  {
    if d[0].0 == k then 0 else IndexOf(d[1..], k) + 1
  }

  lemma GetAt<V>(d: Dict<V>, k: string, default: V)
    requires HasKey(d, k)
    ensures Get(d, k, default) == d[IndexOf(d, k)].1
  {
    if d[0].0 != k {
      GetAt(d[1..], k, default);
    }
  }

  /** With unique keys, looking up the key at position `i` finds the value at position `i`. */
  lemma {:induction false} GetUnique<V>(d: Dict<V>, i: nat, default: V)
    requires UniqueKeys(d) && i < |d|
    ensures Get(d, d[i].0, default) == d[i].1
  {
    if i > 0 {
      assert d[0].0 != d[i].0;
      assert d[1..][i - 1] == d[i];
      GetUnique(d[1..], i - 1, default);
    }
  }

  /** `d[k] = v`: an existing key keeps its position, a new key goes to the end. */
  function Put<V>(d: Dict<V>, k: string, v: V): Dict<V>
  {
    if d == [] then [(k, v)]
    else if d[0].0 == k then [(k, v)] + d[1..]
    else [d[0]] + Put(d[1..], k, v)
  }

  /** Assigning to an existing key updates its entry in place. */
  lemma {:induction false} PutAt<V>(d: Dict<V>, k: string, v: V)
    requires HasKey(d, k)
    ensures Put(d, k, v) == d[IndexOf(d, k) := (k, v)]
  {
    if d[0].0 != k {
      HasKeyTail(d, k);
      PutAt(d[1..], k, v);
      assert d[IndexOf(d, k) := (k, v)] == [d[0]] + d[1..][IndexOf(d[1..], k) := (k, v)];
    }
  }

  lemma HasKeyTail<V>(d: Dict<V>, k: string)
    requires d != [] && d[0].0 != k
    ensures HasKey(d, k) <==> HasKey(d[1..], k)
  {
    if HasKey(d, k) {
      var i :| 0 <= i < |d| && d[i].0 == k;
      assert d[1..][i - 1].0 == k;
    }
    if HasKey(d[1..], k) {
      var i :| 0 <= i < |d[1..]| && d[1..][i].0 == k;
      assert d[i + 1].0 == k;
    }
  }

  lemma {:induction false} PutExisting<V>(d: Dict<V>, k: string, v: V)
    requires HasKey(d, k)
    ensures |Put(d, k, v)| == |d| && Keys(Put(d, k, v)) == Keys(d)
  {
    if d[0].0 != k {
      HasKeyTail(d, k);
      PutExisting(d[1..], k, v);
      assert Keys(Put(d, k, v)) == [d[0].0] + Keys(Put(d[1..], k, v));
      assert Keys(d) == [d[0].0] + Keys(d[1..]);
    } else {
      assert Keys(Put(d, k, v)) == Keys(d);
    }
  }

  lemma {:induction false} PutNew<V>(d: Dict<V>, k: string, v: V)
    requires !HasKey(d, k)
    ensures Put(d, k, v) == d + [(k, v)]
  {
    if d != [] {
      assert d[0].0 != k;
      HasKeyTail(d, k);
      PutNew(d[1..], k, v);
      assert d == [d[0]] + d[1..];
    }
  }

  lemma {:induction false} PutEntries<V>(d: Dict<V>, k: string, v: V)
    ensures forall i :: 0 <= i < |Put(d, k, v)| ==> Put(d, k, v)[i] == (k, v) || Put(d, k, v)[i] in d
    ensures HasKey(Put(d, k, v), k)
  {
    var r := Put(d, k, v);
    if d == [] || d[0].0 == k {
      assert r[0].0 == k;
    } else {
      var rest := Put(d[1..], k, v);
      PutEntries(d[1..], k, v);
      var i :| 0 <= i < |rest| && rest[i].0 == k;
      assert r[i + 1].0 == k;
      forall j | 0 <= j < |r| ensures r[j] == (k, v) || r[j] in d {
        if j > 0 {
          assert r[j] == rest[j - 1];
          if r[j] != (k, v) {
            assert rest[j - 1] in d[1..];
          }
        }
      }
    }
  }

  lemma PutFacts<V>(d: Dict<V>, k: string, v: V)
    ensures HasKey(d, k) ==> |Put(d, k, v)| == |d| && Keys(Put(d, k, v)) == Keys(d)
    ensures !HasKey(d, k) ==> Put(d, k, v) == d + [(k, v)]
    ensures forall i :: 0 <= i < |Put(d, k, v)| ==> Put(d, k, v)[i] == (k, v) || Put(d, k, v)[i] in d
    ensures HasKey(Put(d, k, v), k)
  {
    if HasKey(d, k) { PutExisting(d, k, v); } else { PutNew(d, k, v); }
    PutEntries(d, k, v);
  }

  lemma PutUnique<V>(d: Dict<V>, k: string, v: V)
    requires UniqueKeys(d)
    ensures UniqueKeys(Put(d, k, v))
  {
    PutFacts(d, k, v);
    if !HasKey(d, k) {
      var r := Put(d, k, v);
      forall i, j | 0 <= i < j < |r| ensures r[i].0 != r[j].0 {
        if j == |d| {
          assert r[i].0 == d[i].0;
        }
      }
    } else {
      assert Keys(Put(d, k, v)) == Keys(d);
    }
  }

  /** Reading back after an assignment: the assigned key gives the new value, every other key
      its old one. */
  lemma {:induction false} GetPut<V>(d: Dict<V>, k: string, v: V, k2: string, default: V)
    ensures Get(Put(d, k, v), k2, default) == if k2 == k then v else Get(d, k2, default)
  {
    if d != [] && d[0].0 != k {
      GetPut(d[1..], k, v, k2, default);
      assert Put(d, k, v)[1..] == Put(d[1..], k, v);
    }
  }

  /** The set of keys of a dictionary. */
  function KeySet<V>(d: Dict<V>): set<string> {
    set i | 0 <= i < |d| :: d[i].0
  }

  lemma PutKeySet<V>(d: Dict<V>, k: string, v: V)
    ensures KeySet(Put(d, k, v)) == KeySet(d) + {k}
  {
    PutFacts(d, k, v);
    var r := Put(d, k, v);
    if HasKey(d, k) {
      assert Keys(r) == Keys(d);
      forall x | x in KeySet(r) ensures x in KeySet(d) {
        var i :| 0 <= i < |r| && r[i].0 == x;
        assert Keys(r)[i] == Keys(d)[i];
      }
      forall x | x in KeySet(d) ensures x in KeySet(r) {
        var i :| 0 <= i < |d| && d[i].0 == x;
        assert Keys(r)[i] == Keys(d)[i];
      }
      var j :| 0 <= j < |d| && d[j].0 == k;
      assert k in KeySet(d);
    } else {
      assert r == d + [(k, v)];
      assert r[|d|].0 == k;
      forall x | x in KeySet(r) ensures x in KeySet(d) + {k} {
        var i :| 0 <= i < |r| && r[i].0 == x;
        if i < |d| { assert d[i].0 == x; }
      }
      forall x | x in KeySet(d) ensures x in KeySet(r) {
        var i :| 0 <= i < |d| && d[i].0 == x;
        assert r[i].0 == x;
      }
    }
  }

  lemma KeySetSnoc<V>(d: Dict<V>)
    requires d != []
    ensures KeySet(d) == KeySet(d[..|d| - 1]) + {d[|d| - 1].0}
  {
    var init := d[..|d| - 1];
    forall x | x in KeySet(d) ensures x in KeySet(init) + {d[|d| - 1].0} {
      var i :| 0 <= i < |d| && d[i].0 == x;
      if i < |d| - 1 { assert init[i].0 == x; }
    }
    forall x | x in KeySet(init) ensures x in KeySet(d) {
      var i :| 0 <= i < |init| && init[i].0 == x;
      assert d[i].0 == x;
    }
  }

  /** With unique keys, the number of entries is the number of keys. */
  lemma {:induction false} UniqueKeysCount<V>(d: Dict<V>)
    requires UniqueKeys(d)
    ensures |KeySet(d)| == |d|
    decreases |d|
  {
    if d != [] {
      var last := |d| - 1;
      var init := d[..last];
      assert UniqueKeys(init);
      UniqueKeysCount(init);
      KeySetSnoc(d);
      forall i | 0 <= i < |init| ensures init[i].0 != d[last].0 {
        assert init[i] == d[i];
      }
    }
  }

}

/** Regular expressions are not modelled character by character: the engine is a parameter
    that plays the part of Python's `re.finditer(pattern, subject)`.  Everything the pipeline
    asks of `re` is derived from it: `re.search` succeeds when there is a match,
    `len(re.findall(...))` counts the matches, `match.start()` and `match.group()` are the fields
    of a match.  Flags are written into the pattern inline, as Python allows (`(?i)` for
    `re.IGNORECASE`). */
module Regex {
  import opened PyValues

  datatype Match = Match(start: nat, text: string)

  /** `re.finditer(pattern, subject)`, as a list. */
  type Engine = (string, string) -> seq<Match>

  /** `re.IGNORECASE` written inline. */
  const IgnoreCase: string := "(?i)"

  /** `bool(re.search(p, s))`. */
  predicate Search(rx: Engine, p: string, s: string) {
    |rx(p, s)| > 0
  }

  /** `len(re.findall(p, s))`. */
  function CountAll(rx: Engine, p: string, s: string): nat {
    |rx(p, s)|
  }

  /** `re.findall(p, s)` for a pattern without groups: the matched texts. */
  function FindAll(rx: Engine, p: string, s: string): (r: seq<string>)
    ensures |r| == CountAll(rx, p, s)
  {
    seq(|rx(p, s)|, i requires 0 <= i < |rx(p, s)| => rx(p, s)[i].text)
  }

  /** `re.search(p, s).group()` when there is a match. */
  function FirstMatch(rx: Engine, p: string, s: string): (r: Option<string>)
    ensures r.Some? <==> Search(rx, p, s)
  {
    if |rx(p, s)| > 0 then Some(rx(p, s)[0].text) else None
  }

  /** An engine whose matches are slices of the subject, as Python's are. */
  ghost predicate Faithful(rx: Engine) {
    forall p, s, m :: m in rx(p, s) ==> m.start + |m.text| <= |s| && s[m.start..m.start + |m.text|] == m.text
  }
}
