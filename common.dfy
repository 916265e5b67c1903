/** Definitions shared by every part of the QuizRace model: optional values
    and results, ordered JavaScript records, the random shuffle, and the
    JavaScript string operations `split` and `trim`. */
module Common {

  datatype Option<+T> = None | Some(value: T)

  datatype Result<+T, +E> = Ok(value: T) | Err(error: E)

  // ---------------------------------------------------------------------------
  // Ordered records.  A JavaScript object with string keys, such as the
  // `Record<string, number>` score tables, keeps its keys in insertion order;
  // it is modelled as an association list whose keys are distinct.
  // ---------------------------------------------------------------------------

  type Record = seq<(string, int)>

  predicate DistinctKeys(r: Record) {
    forall i, j :: 0 <= i < j < |r| ==> r[i].0 != r[j].0
  }

  function Keys(r: Record): set<string> {
    set i | 0 <= i < |r| :: r[i].0
  }

  /** `r[k]`, with `None` for `undefined`. */
  function Get(r: Record, k: string): (v: Option<int>)
    ensures v.Some? <==> k in Keys(r)
    ensures v.Some? ==> (k, v.value) in r
  {
    if r == [] then None
    else if r[0].0 == k then Some(r[0].1)
    else
      KeysCons(r);
      Get(r[1..], k)
  }

  lemma KeysCons(r: Record)
    requires r != []
    ensures Keys(r) == {r[0].0} + Keys(r[1..])
  {
    forall x | x in Keys(r) ensures x in {r[0].0} + Keys(r[1..]) {
      var i :| 0 <= i < |r| && r[i].0 == x;
      if i > 0 { assert r[1..][i - 1].0 == x; }
    }
    forall x | x in Keys(r[1..]) ensures x in Keys(r) {
      var i :| 0 <= i < |r| - 1 && r[1..][i].0 == x;
      assert r[i + 1].0 == x;
    }
  }

  /** `{...r, [k]: v}`: an existing key keeps its position and takes the new
      value; a new key is appended at the end. */
  function Put(r: Record, k: string, v: int): (r': Record)
    ensures Get(r', k) == Some(v)
    ensures forall k' :: k' != k ==> Get(r', k') == Get(r, k')
  {
    if r == [] then [(k, v)]
    else if r[0].0 == k then [(k, v)] + r[1..]
    else [r[0]] + Put(r[1..], k, v)
  }

  /** The keys after `Put` are the old ones and `k`. */
  lemma PutKeys(r: Record, k: string, v: int)
    ensures Keys(Put(r, k, v)) == Keys(r) + {k}
  {
    var r' := Put(r, k, v);
    forall x ensures x in Keys(r') <==> x in Keys(r) + {k} {
      assert Get(r', x).Some? <==> x in Keys(r');
    }
  }

  /** `Put` grows the record by one entry exactly when the key is new. */
  lemma {:induction false} PutLength(r: Record, k: string, v: int)
    ensures |Put(r, k, v)| == if k in Keys(r) then |r| else |r| + 1
  {
    if r != [] {
      KeysCons(r);
      if r[0].0 != k {
        PutLength(r[1..], k, v);
      }
    }
  }

  /** `Put` keeps the keys of a record distinct. */
  lemma {:induction false} PutKeepsDistinct(r: Record, k: string, v: int)
    ensures DistinctKeys(r) ==> DistinctKeys(Put(r, k, v))
  {
    if r != [] && DistinctKeys(r) {
      var r' := Put(r, k, v);
      if r[0].0 == k {
        assert forall i :: 1 <= i < |r'| ==> r'[i] == r[i];
      } else {
        var tail := Put(r[1..], k, v);
        PutKeepsDistinct(r[1..], k, v);
        PutKeys(r[1..], k, v);
        KeysCons(r);
        assert r[0].0 !in Keys(r[1..]);
        forall j | 0 <= j < |tail| ensures tail[j].0 != r[0].0 {
          assert tail[j].0 in Keys(tail);
        }
        assert r' == [r[0]] + tail;
      }
    }
  }

  // ---------------------------------------------------------------------------
  // The random shuffle.  `[...xs].sort(() => Math.random() - 0.5)` yields
  // some permutation of `xs` chosen by the random source; the model takes that
  // choice as an input, a list of transpositions (every permutation is a
  // product of transpositions).  A pair out of range is skipped.
  // ---------------------------------------------------------------------------

  function Swap<T>(s: seq<T>, i: nat, j: nat): (r: seq<T>)
    requires i < |s| && j < |s|
    ensures |r| == |s| && multiset(r) == multiset(s)
    ensures r[i] == s[j] && r[j] == s[i]
    ensures forall k :: 0 <= k < |s| && k != i && k != j ==> r[k] == s[k]
  {
    s[i := s[j]][j := s[i]]
  }

  function Shuffle<T>(s: seq<T>, swaps: seq<(nat, nat)>): (r: seq<T>)
    ensures |r| == |s| && multiset(r) == multiset(s)
    decreases |swaps|
  {
    if swaps == [] then s
    else
      var (i, j) := swaps[0];
      Shuffle(if i < |s| && j < |s| then Swap(s, i, j) else s, swaps[1..])
  }

  /** `[0, 1, ..., n - 1]`. */
  function Range(n: nat): (r: seq<int>)
    ensures |r| == n && forall i :: 0 <= i < n ==> r[i] == i
  {
    if n == 0 then [] else Range(n - 1) + [n - 1]
  }

  // ---------------------------------------------------------------------------
  // `String.prototype.split` with a one-character separator.
  // ---------------------------------------------------------------------------

  /** Position of the first occurrence of `c` in `s`. */
  function IndexOf(s: string, c: char): (i: nat)
    requires c in s
    ensures i < |s| && s[i] == c && c !in s[..i]
  {
    if s[0] == c then 0
    else
      var i := 1 + IndexOf(s[1..], c);
      assert s[..i] == [s[0]] + s[1..][..i - 1];
      i
  }

  /** The first occurrence is the only position holding `c` with no `c` before it. */
  lemma IndexOfUnique(s: string, c: char, j: nat)
    requires j < |s| && s[j] == c && c !in s[..j]
    ensures IndexOf(s, c) == j
  {
  }

  function Split(s: string, sep: char): (parts: seq<string>)
    ensures |parts| >= 1
    ensures forall k :: 0 <= k < |parts| ==> sep !in parts[k]
    decreases |s|
  {
    if sep !in s then [s]
    else
      var i := IndexOf(s, sep);
      [s[..i]] + Split(s[i + 1..], sep)
  }

  /** The first piece of a split is the prefix up to the first separator, or
      the whole string when there is none. */
  lemma SplitHead(s: string, sep: char)
    ensures var head := Split(s, sep)[0];
      |head| <= |s| && s[..|head|] == head
      && (|head| == |s| || s[|head|] == sep)
  {
  }

  /** `parts.join(sep)`. */
  function Join(parts: seq<string>, sep: char): string
    requires |parts| >= 1
  {
    if |parts| == 1 then parts[0] else parts[0] + [sep] + Join(parts[1..], sep)
  }

  /** Joining the pieces of a split gives back the original string. */
  lemma {:induction false} JoinSplit(s: string, sep: char)
    ensures Join(Split(s, sep), sep) == s
    decreases |s|
  {
    if sep in s {
      var i := IndexOf(s, sep);
      JoinSplit(s[i + 1..], sep);
      assert s == s[..i] + [sep] + s[i + 1..];
    }
  }

  /** Splitting a join of separator-free pieces gives back the pieces. */
  lemma {:induction false} SplitJoin(parts: seq<string>, sep: char)
    requires |parts| >= 1
    requires forall k :: 0 <= k < |parts| ==> sep !in parts[k]
    ensures Split(Join(parts, sep), sep) == parts
  {
    if |parts| > 1 {
      var s := Join(parts, sep);
      var rest := Join(parts[1..], sep);
      SplitJoin(parts[1..], sep);
      assert s[|parts[0]|] == sep;
      assert s[..|parts[0]|] == parts[0];
      IndexOfUnique(s, sep, |parts[0]|);
      var i := IndexOf(s, sep);
      assert s[i + 1..] == rest;
    }
  }

  // ---------------------------------------------------------------------------
  // `String.prototype.trim`: strips leading and trailing white space and line
  // terminators as ECMAScript defines them.
  // ---------------------------------------------------------------------------

  predicate IsWhiteSpace(c: char) {
    || c == '\t' || c == '\n' || c == '\U{B}' || c == '\U{C}' || c == '\r' || c == ' '
    || c == '\U{A0}' || c == '\U{1680}' || ('\U{2000}' <= c <= '\U{200A}')
    || c == '\U{2028}' || c == '\U{2029}' || c == '\U{202F}' || c == '\U{205F}'
    || c == '\U{3000}' || c == '\U{FEFF}'
  }

  function TrimStart(s: string): (r: string)
    ensures |r| <= |s| && r == s[|s| - |r|..]
    ensures r == [] || !IsWhiteSpace(r[0])
    ensures forall i :: 0 <= i < |s| - |r| ==> IsWhiteSpace(s[i])
  {
    if s != [] && IsWhiteSpace(s[0]) then TrimStart(s[1..]) else s
  }

  function TrimEnd(s: string): (r: string)
    ensures |r| <= |s| && r == s[..|r|]
    ensures r == [] || !IsWhiteSpace(r[|r| - 1])
    ensures forall i :: |r| <= i < |s| ==> IsWhiteSpace(s[i])
  {
    if s != [] && IsWhiteSpace(s[|s| - 1]) then TrimEnd(s[..|s| - 1]) else s
  }

  /** `s.trim()`: the infix of `s` left after removing white space at both
      ends; it neither starts nor ends with white space. */
  function Trim(s: string): (r: string)
    ensures exists a, b :: (0 <= a <= b <= |s| && r == s[a..b]
      && (forall i :: 0 <= i < a ==> IsWhiteSpace(s[i]))
      && (forall i :: b <= i < |s| ==> IsWhiteSpace(s[i])))
    ensures r == [] || (!IsWhiteSpace(r[0]) && !IsWhiteSpace(r[|r| - 1]))
  {
    var t := TrimStart(s);
    var r := TrimEnd(t);
    var a := |s| - |t|;
    assert r == s[a..a + |r|];
    r
  }

  /** A string trims to "" exactly when it is made of white space only. */
  lemma TrimEmptyIffBlank(s: string)
    ensures Trim(s) == [] <==> forall i :: 0 <= i < |s| ==> IsWhiteSpace(s[i])
  {
    var t := TrimStart(s);
    if Trim(s) == [] {
      assert t == [];
    } else {
      var a, b :| 0 <= a <= b <= |s| && Trim(s) == s[a..b];
      assert s[a] == Trim(s)[0];
    }
  }

  /** Trimming is idempotent. */
  lemma TrimIdempotent(s: string)
    ensures Trim(Trim(s)) == Trim(s)
  {
    var r := Trim(s);
    if r != [] {
      var a, b :| 0 <= a <= b <= |r| && Trim(r) == r[a..b]
        && (forall i :: 0 <= i < a ==> IsWhiteSpace(r[i]))
        && (forall i :: b <= i < |r| ==> IsWhiteSpace(r[i]));
      assert r[0..|r|] == r;
    }
  }

  /** Trimming only removes characters, so it cannot introduce `c`. */
  lemma TrimKeepsAbsent(s: string, c: char)
    requires c !in s
    ensures c !in Trim(s)
  {
    var t := TrimStart(s);
    SliceKeepsAbsent(s, |s| - |t|, |s|, c);
    SliceKeepsAbsent(t, 0, |TrimEnd(t)|, c);
  }

  lemma SliceKeepsAbsent(s: string, a: nat, b: nat, c: char)
    requires a <= b <= |s| && c !in s
    ensures c !in s[a..b]
  {
    assert forall k :: 0 <= k < b - a ==> s[a..b][k] == s[a + k];
  }
}
