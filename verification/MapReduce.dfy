// The word-count style pipeline, sequential and distributed: map every input, sort the
// pairs by key, and reduce each run of equal keys.
module MapReduce {

  datatype KeyValue = KeyValue(key: string, value: string)

  type MapFn = (string, string) -> seq<KeyValue>
  type ReduceFn = (string, seq<string>) -> string

  // ---------- keys in order ----------

  // Byte-wise order of strings.
  predicate Less(a: string, b: string) {
    b != "" && (a == "" || a[0] < b[0] || (a[0] == b[0] && Less(a[1..], b[1..])))
  }

  lemma {:induction false} LessTotal(a: string, b: string)
    ensures a == b || Less(a, b) || Less(b, a)
    ensures !(Less(a, b) && Less(b, a)) && !Less(a, a)
  {
    if a != "" && b != "" && a[0] == b[0] {
      LessTotal(a[1..], b[1..]);
      assert a == [a[0]] + a[1..] && b == [b[0]] + b[1..];
    }
    if a != "" { LessTotal(a[1..], a[1..]); }
  }

  lemma {:induction false} LessThrough(a: string, b: string, c: string)
    requires Less(a, b) && Less(b, c)
    ensures Less(a, c)
  {
    if a != "" && a[0] == b[0] && b[0] == c[0] {
      LessThrough(a[1..], b[1..], c[1..]);
    }
  }

  ghost predicate Sorted(s: seq<KeyValue>) {
    forall i, j :: 0 <= i < j < |s| ==> !Less(s[j].key, s[i].key)
  }

  // Any sort by key: the code's is not stable, and callers rely on no more than this.
  method SortByKey(kva: seq<KeyValue>) returns (s: seq<KeyValue>)
    ensures Sorted(s) && multiset(s) == multiset(kva)
  {
    s := [];
    var n := 0;
    while n < |kva|
      invariant 0 <= n <= |kva| && Sorted(s) && multiset(s) == multiset(kva[..n])
    {
      var i := 0;
      while i < |s| && !Less(kva[n].key, s[i].key)
        invariant 0 <= i <= |s|
        invariant forall j :: 0 <= j < i ==> !Less(kva[n].key, s[j].key)
      {
        i := i + 1;
      }
      InsertSorted(s, i, kva[n]);
      assert s == s[..i] + s[i..];
      assert kva[..n + 1] == kva[..n] + [kva[n]];
      s := s[..i] + [kva[n]] + s[i..];
      n := n + 1;
    }
    assert kva[..n] == kva;
  }

  lemma InsertSorted(s: seq<KeyValue>, i: nat, x: KeyValue)
    requires Sorted(s) && i <= |s|
    requires forall j :: 0 <= j < i ==> !Less(x.key, s[j].key)
    requires i < |s| ==> Less(x.key, s[i].key)
    ensures Sorted(s[..i] + [x] + s[i..])
  {
    forall j | i <= j < |s| ensures !Less(s[j].key, x.key) {
      LessTotal(s[i].key, s[j].key);
      LessTotal(s[j].key, x.key);
      if Less(s[j].key, x.key) && i < j { LessThrough(s[j].key, x.key, s[i].key); }
    }
  }

  // ---------- what a reduction of some pairs is ----------

  // The values of a key, in order.
  function Values(kva: seq<KeyValue>, key: string): seq<string> {
    if kva == [] then []
    else Values(kva[..|kva| - 1], key) + (if kva[|kva| - 1].key == key then [kva[|kva| - 1].value] else [])
  }

  predicate HasKey(kva: seq<KeyValue>, key: string) {
    exists i :: 0 <= i < |kva| && kva[i].key == key
  }

  // One line for every key, no two for one key, each the reduction of the key's values.
  ghost predicate Reduces(reducef: ReduceFn, kva: seq<KeyValue>, out: seq<KeyValue>) {
    && (forall i, j :: 0 <= i < j < |out| ==> out[i].key != out[j].key)
    && (forall i :: 0 <= i < |out| ==> HasKey(kva, out[i].key) && out[i].value == reducef(out[i].key, Values(kva, out[i].key)))
    && (forall key :: HasKey(kva, key) ==> HasKey(out, key))
  }

  // ---------- the two index loops ----------

  lemma {:induction false} ValuesAppend(a: seq<KeyValue>, b: seq<KeyValue>, key: string)
    ensures Values(a + b, key) == Values(a, key) + Values(b, key)
  {
    if b == [] {
      assert a + b == a;
    } else {
      var n := |b| - 1;
      assert (a + b)[..|a + b| - 1] == a + b[..n];
      ValuesAppend(a, b[..n], key);
    }
  }

  lemma {:induction false} ValuesNone(a: seq<KeyValue>, key: string)
    requires !HasKey(a, key)
    ensures Values(a, key) == []
  {
    if a != [] {
      var n := |a| - 1;
      assert forall i :: 0 <= i <= n ==> a[i].key != key;
      ValuesNone(a[..n], key);
    }
  }

  // A key's pairs are next to each other in sorted pairs.
  lemma RunEnds(s: seq<KeyValue>, i: nat, j: nat, k: nat)
    requires Sorted(s) && i < j <= |s| && (forall m :: i <= m < j ==> s[m].key == s[i].key)
    requires i > 0 ==> s[i - 1].key != s[i].key
    requires j < |s| ==> s[j].key != s[i].key
    requires k < i || j <= k < |s|
    ensures s[k].key != s[i].key
  {
    if k < i {
      LessTotal(s[i - 1].key, s[i].key);
      assert !Less(s[i].key, s[i - 1].key);
      assert k < i - 1 ==> !Less(s[i - 1].key, s[k].key);
    } else {
      LessTotal(s[j].key, s[i].key);
      assert !Less(s[j].key, s[i].key);
      assert j < k ==> !Less(s[k].key, s[j].key);
    }
  }

  // In sorted pairs the run from i to j holds all the values of its key.
  lemma RunIsAll(s: seq<KeyValue>, i: nat, j: nat)
    requires Sorted(s) && i < j <= |s| && (forall k :: i <= k < j ==> s[k].key == s[i].key)
    requires i > 0 ==> s[i - 1].key != s[i].key
    requires j < |s| ==> s[j].key != s[i].key
    ensures Values(s, s[i].key) == Values(s[i..j], s[i].key)
    ensures forall k :: 0 <= k < i || j <= k < |s| ==> s[k].key != s[i].key
  {
    forall k | 0 <= k < i || j <= k < |s| ensures s[k].key != s[i].key { RunEnds(s, i, j, k); }
    ValuesMiddle(s, i, j, s[i].key);
  }

  lemma ValuesMiddle(s: seq<KeyValue>, i: nat, j: nat, key: string)
    requires i <= j <= |s| && forall k :: 0 <= k < i || j <= k < |s| ==> s[k].key != key
    ensures Values(s, key) == Values(s[i..j], key)
  {
    ValuesNone(s[..i], key);
    ValuesNone(s[j..], key);
    ValuesAppend(s[..i], s[i..j], key);
    ValuesAppend(s[..i] + s[i..j], s[j..], key);
    assert s == s[..i] + s[i..j] + s[j..];
  }

  // A key with its values.
  datatype Run = Run(key: string, values: seq<string>)

  ghost predicate HasRun(runs: seq<Run>, key: string) {
    exists k :: 0 <= k < |runs| && runs[k].key == key
  }

  // One run for every key among the first i pairs, no two for one key, each with all
  // the values that s has for it.
  ghost predicate RunsUpTo(s: seq<KeyValue>, i: nat, runs: seq<Run>) {
    && i <= |s|
    && (forall k, m :: 0 <= k < m < |runs| ==> runs[k].key != runs[m].key)
    && (forall k :: 0 <= k < |runs| ==> HasKey(s[..i], runs[k].key) && runs[k].values == Values(s, runs[k].key))
    && (forall k :: 0 <= k < i ==> HasRun(runs, s[k].key))
  }

  // i is between two runs of sorted pairs.
  ghost predicate Between(s: seq<KeyValue>, i: nat) {
    0 < i < |s| ==> s[i - 1].key != s[i].key
  }

  lemma EarlierRuns(s: seq<KeyValue>, i: nat, j: nat, runs: seq<Run>, k: nat)
    requires RunsUpTo(s, i, runs) && i < j <= |s| && k < |runs|
    requires forall m :: 0 <= m < i ==> s[m].key != s[i].key
    ensures runs[k].key != s[i].key && HasKey(s[..j], runs[k].key)
  {
    assert HasKey(s[..i], runs[k].key);
    var m :| 0 <= m < |s[..i]| && s[..i][m].key == runs[k].key;
    assert s[m].key == runs[k].key && s[..j][m].key == runs[k].key;
  }

  lemma AddRun(s: seq<KeyValue>, i: nat, j: nat, runs: seq<Run>, values: seq<string>)
    requires Sorted(s) && RunsUpTo(s, i, runs) && Between(s, i) && i < j <= |s|
    requires forall k :: i <= k < j ==> s[k].key == s[i].key
    requires j < |s| ==> s[j].key != s[i].key
    requires values == Values(s[i..j], s[i].key)
    ensures RunsUpTo(s, j, runs + [Run(s[i].key, values)]) && Between(s, j)
  {
    RunIsAll(s, i, j);
    var more := runs + [Run(s[i].key, values)];
    forall k | 0 <= k < |runs| ensures runs[k].key != s[i].key && HasKey(s[..j], runs[k].key) {
      EarlierRuns(s, i, j, runs, k);
    }
    assert s[..j][i].key == s[i].key;
    forall k | 0 <= k < j ensures HasRun(more, s[k].key) {
      if k < i {
        var m :| 0 <= m < |runs| && runs[m].key == s[k].key;
        assert more[m].key == s[k].key;
      } else {
        assert more[|runs|].key == s[k].key;
      }
    }
  }

  // The line that each run is reduced to.
  ghost predicate Lines(reducef: ReduceFn, runs: seq<Run>, out: seq<KeyValue>) {
    && |runs| == |out|
    && forall k :: 0 <= k < |out| ==> out[k] == KeyValue(runs[k].key, reducef(runs[k].key, runs[k].values))
  }

  lemma RunsReduce(reducef: ReduceFn, s: seq<KeyValue>, runs: seq<Run>, out: seq<KeyValue>)
    requires RunsUpTo(s, |s|, runs) && Lines(reducef, runs, out)
    ensures Reduces(reducef, s, out)
  {
    assert s[..|s|] == s;
    forall key | HasKey(s, key) ensures HasKey(out, key) {
      var i :| 0 <= i < |s| && s[i].key == key;
      assert HasRun(runs, s[i].key);
      var k :| 0 <= k < |runs| && runs[k].key == key;
      assert out[k].key == key;
    }
  }

  // The inner loops of both programs: the run from i to j, and its values.
  method TakeRun(s: seq<KeyValue>, i: nat) returns (j: nat, values: seq<string>)
    requires i < |s|
    ensures i < j <= |s| && (forall k :: i <= k < j ==> s[k].key == s[i].key) && (j < |s| ==> s[j].key != s[i].key)
    ensures values == Values(s[i..j], s[i].key)
  {
    j := i + 1;
    while j < |s| && s[j].key == s[i].key
      invariant i < j <= |s| && forall k :: i <= k < j ==> s[k].key == s[i].key
    {
      j := j + 1;
    }
    values := [];
    var k := i;
    while k < j
      invariant i <= k <= j && values == Values(s[i..k], s[i].key)
    {
      assert s[i..k + 1][..k - i] == s[i..k];
      values := values + [s[k].value];
      k := k + 1;
    }
  }

  // Sorted pairs cut into runs of one key, each reduced as it is found.
  method ReduceSorted(reducef: ReduceFn, s: seq<KeyValue>) returns (out: seq<KeyValue>)
    requires Sorted(s)
    ensures Reduces(reducef, s, out)
  {
    out := [];
    ghost var runs: seq<Run> := [];
    var i := 0;
    while i < |s|
      invariant RunsUpTo(s, i, runs) && Between(s, i) && Lines(reducef, runs, out)
      decreases |s| - i
    {
      var j, values := TakeRun(s, i);
      AddRun(s, i, j, runs, values);
      runs := runs + [Run(s[i].key, values)];
      out := out + [KeyValue(s[i].key, reducef(s[i].key, values))];
      i := j;
    }
    RunsReduce(reducef, s, runs, out);
  }

  // The worker first collects the runs, and reduces them after that.
  method Shuffle(s: seq<KeyValue>) returns (runs: seq<Run>)
    requires Sorted(s)
    ensures RunsUpTo(s, |s|, runs)
  {
    runs := [];
    var i := 0;
    while i < |s|
      invariant RunsUpTo(s, i, runs) && Between(s, i)
      decreases |s| - i
    {
      var j, values := TakeRun(s, i);
      AddRun(s, i, j, runs, values);
      runs := runs + [Run(s[i].key, values)];
      i := j;
    }
  }

  // ---------- the two programs ----------

  function Concat(files: seq<seq<KeyValue>>): seq<KeyValue> {
    if files == [] then [] else Concat(files[..|files| - 1]) + files[|files| - 1]
  }

  // All the pairs that mapping the first k inputs gives.
  function Pairs(mapf: MapFn, inputs: seq<(string, string)>, k: nat): seq<KeyValue>
    requires k <= |inputs|
  {
    if k == 0 then [] else Pairs(mapf, inputs, k - 1) + mapf(inputs[k - 1].0, inputs[k - 1].1)
  }

  // The pairs whose key hashes to partition r.
  function Bucket(hash: string -> nat, n: nat, kva: seq<KeyValue>, r: nat): seq<KeyValue>
    requires n > 0
  {
    if kva == [] then []
    else
      var kv := kva[|kva| - 1];
      Bucket(hash, n, kva[..|kva| - 1], r) + (if hash(kv.key) % n == r then [kv] else [])
  }

  // The order of a key's values is nothing to the reduction.
  ghost predicate Insensitive(reducef: ReduceFn) {
    forall key, xs, ys :: multiset(xs) == multiset(ys) ==> reducef(key, xs) == reducef(key, ys)
  }

  method Sequential(mapf: MapFn, reducef: ReduceFn, inputs: seq<(string, string)>) returns (out: seq<KeyValue>)
    ensures Insensitive(reducef) ==> Reduces(reducef, Pairs(mapf, inputs, |inputs|), out)
  {
    var intermediate: seq<KeyValue> := [];
    var k := 0;
    while k < |inputs|
      invariant 0 <= k <= |inputs| && intermediate == Pairs(mapf, inputs, k)
    {
      intermediate := intermediate + mapf(inputs[k].0, inputs[k].1);
      k := k + 1;
    }
    var s := SortByKey(intermediate);
    out := ReduceSorted(reducef, s);
    if Insensitive(reducef) { ReducesOrder(reducef, s, intermediate, out); }
  }

  // A map task: each pair goes to the file of its partition.
  method MapTask(hash: string -> nat, n: nat, kva: seq<KeyValue>) returns (files: seq<seq<KeyValue>>)
    requires n > 0
    ensures |files| == n && forall r :: 0 <= r < n ==> files[r] == Bucket(hash, n, kva, r)
  {
    files := seq(n, _ => []);
    var k := 0;
    while k < |kva|
      invariant 0 <= k <= |kva| && |files| == n
      invariant forall r :: 0 <= r < n ==> files[r] == Bucket(hash, n, kva[..k], r)
    {
      assert kva[..k + 1][..k] == kva[..k];
      var r := hash(kva[k].key) % n;
      files := files[r := files[r] + [kva[k]]];
      k := k + 1;
    }
    assert kva[..k] == kva;
  }

  // A reduce task over the files it found, in the order it found them.
  method ReduceTask(reducef: ReduceFn, files: seq<seq<KeyValue>>) returns (outs: seq<KeyValue>)
    ensures Insensitive(reducef) ==> Reduces(reducef, Concat(files), outs)
  {
    var kva: seq<KeyValue> := [];
    var f := 0;
    while f < |files|
      invariant 0 <= f <= |files| && kva == Concat(files[..f])
    {
      assert files[..f + 1][..f] == files[..f];
      kva := kva + files[f];
      f := f + 1;
    }
    assert files[..f] == files;
    var s := SortByKey(kva);
    var runs := Shuffle(s);
    outs := [];
    var i := 0;
    while i < |runs|
      invariant 0 <= i <= |runs| && Lines(reducef, runs[..i], outs)
    {
      outs := outs + [KeyValue(runs[i].key, reducef(runs[i].key, runs[i].values))];
      i := i + 1;
    }
    assert runs[..i] == runs;
    RunsReduce(reducef, s, runs, outs);
    if Insensitive(reducef) { ReducesOrder(reducef, s, kva, outs); }
  }

  // ---------- a reduction of some pairs is one of any order of them ----------

  lemma {:induction false} ValuesCount(kva: seq<KeyValue>, key: string, v: string)
    ensures multiset(Values(kva, key))[v] == multiset(kva)[KeyValue(key, v)]
  {
    if kva != [] {
      var n := |kva| - 1;
      ValuesCount(kva[..n], key, v);
      assert kva == kva[..n] + [kva[n]];
      assert multiset(kva) == multiset(kva[..n]) + multiset{kva[n]};
    }
  }

  lemma KeysOrder(a: seq<KeyValue>, b: seq<KeyValue>, key: string)
    requires multiset(a) == multiset(b) && HasKey(a, key)
    ensures HasKey(b, key)
  {
    var i :| 0 <= i < |a| && a[i].key == key;
    assert a[i] in multiset(b);
    assert a[i] in b;
    var j :| 0 <= j < |b| && b[j] == a[i];
  }

  lemma ReducesOrder(reducef: ReduceFn, a: seq<KeyValue>, b: seq<KeyValue>, out: seq<KeyValue>)
    requires Insensitive(reducef) && multiset(a) == multiset(b) && Reduces(reducef, a, out)
    ensures Reduces(reducef, b, out)
  {
    forall i | 0 <= i < |out| ensures HasKey(b, out[i].key) && out[i].value == reducef(out[i].key, Values(b, out[i].key)) {
      var key := out[i].key;
      KeysOrder(a, b, key);
      forall v ensures multiset(Values(a, key))[v] == multiset(Values(b, key))[v] {
        ValuesCount(a, key, v);
        ValuesCount(b, key, v);
      }
      assert multiset(Values(a, key)) == multiset(Values(b, key));
    }
    forall key | HasKey(b, key) ensures HasKey(out, key) {
      KeysOrder(b, a, key);
    }
  }

  // ---------- two reductions of the same pairs ----------

  lemma {:induction false} OnceEach(s: seq<KeyValue>, x: KeyValue)
    requires forall i, j :: 0 <= i < j < |s| ==> s[i].key != s[j].key
    ensures multiset(s)[x] == if x in s then 1 else 0
  {
    if s != [] {
      var n := |s| - 1;
      OnceEach(s[..n], x);
      assert s == s[..n] + [s[n]];
      assert multiset(s) == multiset(s[..n]) + multiset{s[n]};
      assert x in s[..n] ==> x != s[n];
    }
  }

  lemma LineInOther(reducef: ReduceFn, kva: seq<KeyValue>, o: seq<KeyValue>, p: seq<KeyValue>, x: KeyValue)
    requires Reduces(reducef, kva, o) && Reduces(reducef, kva, p) && x in o
    ensures x in p
  {
    var i :| 0 <= i < |o| && o[i] == x;
    assert HasKey(p, x.key);
    var j :| 0 <= j < |p| && p[j].key == x.key;
    assert p[j] == x;
  }

  // Reductions of the same pairs have the same lines.
  lemma SameLines(reducef: ReduceFn, kva: seq<KeyValue>, o: seq<KeyValue>, p: seq<KeyValue>)
    requires Reduces(reducef, kva, o) && Reduces(reducef, kva, p)
    ensures multiset(o) == multiset(p)
  {
    forall x ensures multiset(o)[x] == multiset(p)[x] {
      OnceEach(o, x);
      OnceEach(p, x);
      if x in o { LineInOther(reducef, kva, o, p, x); }
      if x in p { LineInOther(reducef, kva, p, o, x); }
    }
  }

  // ---------- partitions ----------

  // A key is in exactly the partition its hash names, with all its values.
  lemma {:induction false} KeyInOnePartition(hash: string -> nat, n: nat, kva: seq<KeyValue>, r: nat, key: string)
    requires n > 0
    ensures HasKey(Bucket(hash, n, kva, r), key) <==> HasKey(kva, key) && hash(key) % n == r
    ensures hash(key) % n == r ==> Values(Bucket(hash, n, kva, r), key) == Values(kva, key)
  {
    if kva != [] {
      var m := |kva| - 1;
      KeyInOnePartition(hash, n, kva[..m], r, key);
      HasKeySplit(kva[..m], [kva[m]], key);
      assert kva == kva[..m] + [kva[m]];
      var b := Bucket(hash, n, kva[..m], r);
      HasKeySplit(b, [kva[m]], key);
      ValuesAppend(b, [kva[m]], key);
      assert hash(kva[m].key) % n != r ==> Bucket(hash, n, kva, r) == b;
      assert [kva[m]][0].key == kva[m].key;
    }
  }

  lemma HasKeySplit(a: seq<KeyValue>, b: seq<KeyValue>, key: string)
    ensures HasKey(a + b, key) <==> HasKey(a, key) || HasKey(b, key)
  {
    if i :| 0 <= i < |a| && a[i].key == key { assert (a + b)[i].key == key; }
    if i :| 0 <= i < |b| && b[i].key == key { assert (a + b)[|a| + i].key == key; }
  }

  // Output that reduces the partitions below m.
  ghost predicate Covers(reducef: ReduceFn, hash: string -> nat, n: nat, kva: seq<KeyValue>, m: nat, out: seq<KeyValue>)
    requires n > 0
  {
    && (forall i, j :: 0 <= i < j < |out| ==> out[i].key != out[j].key)
    && (forall i :: 0 <= i < |out| ==>
          HasKey(kva, out[i].key) && hash(out[i].key) % n < m && out[i].value == reducef(out[i].key, Values(kva, out[i].key)))
    && (forall key :: HasKey(kva, key) && hash(key) % n < m ==> HasKey(out, key))
  }

  lemma CoverOne(reducef: ReduceFn, hash: string -> nat, n: nat, kva: seq<KeyValue>, m: nat, out: seq<KeyValue>, o: seq<KeyValue>)
    requires n > 0 && Covers(reducef, hash, n, kva, m, out) && Reduces(reducef, Bucket(hash, n, kva, m), o)
    ensures Covers(reducef, hash, n, kva, m + 1, out + o)
  {
    forall i | 0 <= i < |o|
      ensures HasKey(kva, o[i].key) && hash(o[i].key) % n == m && o[i].value == reducef(o[i].key, Values(kva, o[i].key))
    {
      KeyInOnePartition(hash, n, kva, m, o[i].key);
    }
    forall key | HasKey(kva, key) && hash(key) % n < m + 1 ensures HasKey(out + o, key) {
      KeyInOnePartition(hash, n, kva, m, key);
      HasKeySplit(out, o, key);
    }
  }

  lemma {:induction false} CoverAll(reducef: ReduceFn, hash: string -> nat, n: nat, kva: seq<KeyValue>, outs: seq<seq<KeyValue>>, m: nat)
    requires n > 0 && m <= |outs| && forall r :: 0 <= r < m ==> Reduces(reducef, Bucket(hash, n, kva, r), outs[r])
    ensures Covers(reducef, hash, n, kva, m, Concat(outs[..m]))
  {
    if m > 0 {
      CoverAll(reducef, hash, n, kva, outs, m - 1);
      assert outs[..m][..m - 1] == outs[..m - 1];
      CoverOne(reducef, hash, n, kva, m - 1, Concat(outs[..m - 1]), outs[m - 1]);
    }
  }

  // The outputs of all partitions together reduce all the pairs.
  lemma PartitionsTogether(reducef: ReduceFn, hash: string -> nat, n: nat, kva: seq<KeyValue>, outs: seq<seq<KeyValue>>)
    requires n > 0 && |outs| == n && forall r :: 0 <= r < n ==> Reduces(reducef, Bucket(hash, n, kva, r), outs[r])
    ensures Reduces(reducef, kva, Concat(outs))
  {
    CoverAll(reducef, hash, n, kva, outs, n);
    assert outs[..n] == outs;
    forall key | HasKey(kva, key) ensures HasKey(Concat(outs), key) {
      assert hash(key) % n < n;
    }
  }

  // ---------- files ----------

  lemma {:induction false} BucketAppend(hash: string -> nat, n: nat, a: seq<KeyValue>, b: seq<KeyValue>, r: nat)
    requires n > 0
    ensures Bucket(hash, n, a + b, r) == Bucket(hash, n, a, r) + Bucket(hash, n, b, r)
  {
    if b == [] {
      assert a + b == a;
    } else {
      assert (a + b)[..|a + b| - 1] == a + b[..|b| - 1];
      BucketAppend(hash, n, a, b[..|b| - 1], r);
    }
  }

  // Partition r of every map task.
  function Column(files: seq<seq<seq<KeyValue>>>, r: nat): seq<seq<KeyValue>>
    requires forall m :: 0 <= m < |files| ==> r < |files[m]|
  {
    if files == [] then [] else Column(files[..|files| - 1], r) + [files[|files| - 1][r]]
  }

  ghost predicate Mapped(mapf: MapFn, hash: string -> nat, n: nat, inputs: seq<(string, string)>, files: seq<seq<seq<KeyValue>>>)
    requires n > 0
  {
    && |files| <= |inputs|
    && forall m :: 0 <= m < |files| ==>
         |files[m]| == n && forall r :: 0 <= r < n ==> files[m][r] == Bucket(hash, n, mapf(inputs[m].0, inputs[m].1), r)
  }

  lemma {:induction false} ColumnIsBucket(mapf: MapFn, hash: string -> nat, n: nat, inputs: seq<(string, string)>,
                                          files: seq<seq<seq<KeyValue>>>, r: nat)
    requires n > 0 && r < n && Mapped(mapf, hash, n, inputs, files)
    ensures Concat(Column(files, r)) == Bucket(hash, n, Pairs(mapf, inputs, |files|), r)
    decreases |files|
  {
    if files != [] {
      var m := |files| - 1;
      var rest := files[..m];
      assert Mapped(mapf, hash, n, inputs, rest);
      ColumnIsBucket(mapf, hash, n, inputs, rest, r);
      BucketAppend(hash, n, Pairs(mapf, inputs, m), mapf(inputs[m].0, inputs[m].1), r);
      assert Column(files, r)[..m] == Column(rest, r) by { ColumnLength(rest, r); }
    }
  }

  lemma {:induction false} ColumnLength(files: seq<seq<seq<KeyValue>>>, r: nat)
    requires forall m :: 0 <= m < |files| ==> r < |files[m]|
    ensures |Column(files, r)| == |files|
  {
    if files != [] { ColumnLength(files[..|files| - 1], r); }
  }

  function Without(b: seq<seq<KeyValue>>, i: nat): seq<seq<KeyValue>>
    requires i < |b|
  {
    b[..i] + b[i + 1..]
  }

  lemma OneFileLess(b: seq<seq<KeyValue>>, i: nat)
    requires i < |b|
    ensures multiset(Without(b, i)) == multiset(b) - multiset{b[i]}
  {
    assert b == b[..i] + [b[i]] + b[i + 1..];
  }

  lemma {:induction false} TakeFileOut(b: seq<seq<KeyValue>>, i: nat)
    requires i < |b|
    ensures multiset(Concat(b)) == multiset(Concat(Without(b, i))) + multiset(b[i])
  {
    var n := |b| - 1;
    if i == n {
      assert Without(b, i) == b[..n];
    } else {
      TakeFileOut(b[..n], i);
      assert Without(b, i)[..n - 1] == Without(b[..n], i);
    }
  }

  // The same files in another order hold the same pairs.
  lemma {:induction false} ConcatOrder(a: seq<seq<KeyValue>>, b: seq<seq<KeyValue>>)
    requires multiset(a) == multiset(b)
    ensures multiset(Concat(a)) == multiset(Concat(b))
    decreases |a|
  {
    if a == [] {
      assert |multiset(b)| == |b|;
    } else {
      assert a[0] in multiset(b);
      var i :| 0 <= i < |b| && b[i] == a[0];
      OneFileLess(a, 0);
      OneFileLess(b, i);
      TakeFileOut(a, 0);
      TakeFileOut(b, i);
      ConcatOrder(Without(a, 0), Without(b, i));
    }
  }

  // All the map tasks.
  method MapAll(mapf: MapFn, hash: string -> nat, n: nat, inputs: seq<(string, string)>) returns (files: seq<seq<seq<KeyValue>>>)
    requires n > 0
    ensures |files| == |inputs| && Mapped(mapf, hash, n, inputs, files)
  {
    files := [];
    while |files| < |inputs|
      invariant Mapped(mapf, hash, n, inputs, files)
    {
      var task := MapTask(hash, n, mapf(inputs[|files|].0, inputs[|files|].1));
      files := files + [task];
    }
  }

  // glob lists the same files, in some order.
  ghost predicate Lists(glob: seq<seq<KeyValue>> -> seq<seq<KeyValue>>) {
    forall files :: multiset(glob(files)) == multiset(files)
  }

  // out is the reduction of partition r, if the order of values is nothing to the reduction.
  ghost predicate PartReduced(mapf: MapFn, reducef: ReduceFn, hash: string -> nat, n: nat, inputs: seq<(string, string)>, r: nat, out: seq<KeyValue>)
    requires n > 0
  {
    Insensitive(reducef) ==> Reduces(reducef, Bucket(hash, n, Pairs(mapf, inputs, |inputs|), r), out)
  }

  // One reduce task. glob lists a partition's files in an order of its own.
  method ReduceOne(mapf: MapFn, reducef: ReduceFn, hash: string -> nat, n: nat, inputs: seq<(string, string)>,
                   glob: seq<seq<KeyValue>> -> seq<seq<KeyValue>>, files: seq<seq<seq<KeyValue>>>, r: nat) returns (out: seq<KeyValue>)
    requires n > 0 && r < n && |files| == |inputs| && Mapped(mapf, hash, n, inputs, files)
    requires Lists(glob)
    ensures PartReduced(mapf, reducef, hash, n, inputs, r, out)
  {
    var found := glob(Column(files, r));
    out := ReduceTask(reducef, found);
    ColumnIsBucket(mapf, hash, n, inputs, files, r);
    ConcatOrder(found, Column(files, r));
    if Insensitive(reducef) {
      ReducesOrder(reducef, Concat(found), Bucket(hash, n, Pairs(mapf, inputs, |inputs|), r), out);
    }
  }

  // All map tasks, then all reduce tasks.
  method Distributed(mapf: MapFn, reducef: ReduceFn, hash: string -> nat, n: nat, inputs: seq<(string, string)>,
                     glob: seq<seq<KeyValue>> -> seq<seq<KeyValue>>) returns (outs: seq<seq<KeyValue>>)
    requires n > 0 && Lists(glob)
    ensures |outs| == n && forall r :: 0 <= r < n ==> PartReduced(mapf, reducef, hash, n, inputs, r, outs[r])
  {
    var files := MapAll(mapf, hash, n, inputs);
    outs := [];
    while |outs| < n
      invariant |outs| <= n && forall r :: 0 <= r < |outs| ==> PartReduced(mapf, reducef, hash, n, inputs, r, outs[r])
    {
      var out := ReduceOne(mapf, reducef, hash, n, inputs, glob, files, |outs|);
      outs := outs + [out];
    }
  }

  // However the files are listed and whatever sort is used, the partitions' outputs
  // together are the lines of the sequential output, each once.
  lemma DistributedIsSequential(mapf: MapFn, reducef: ReduceFn, hash: string -> nat, n: nat, inputs: seq<(string, string)>,
                                outs: seq<seq<KeyValue>>, sequential: seq<KeyValue>)
    requires n > 0 && |outs| == n
    requires forall r :: 0 <= r < n ==> Reduces(reducef, Bucket(hash, n, Pairs(mapf, inputs, |inputs|), r), outs[r])
    requires Reduces(reducef, Pairs(mapf, inputs, |inputs|), sequential)
    ensures multiset(Concat(outs)) == multiset(sequential)
  {
    var all := Pairs(mapf, inputs, |inputs|);
    PartitionsTogether(reducef, hash, n, all, outs);
    SameLines(reducef, all, Concat(outs), sequential);
  }

  // Both programs on the same inputs.
  method RunBoth(mapf: MapFn, reducef: ReduceFn, hash: string -> nat, n: nat, inputs: seq<(string, string)>,
                 glob: seq<seq<KeyValue>> -> seq<seq<KeyValue>>) returns (outs: seq<seq<KeyValue>>, sequential: seq<KeyValue>)
    requires n > 0 && Insensitive(reducef) && Lists(glob)
    ensures |outs| == n && multiset(Concat(outs)) == multiset(sequential)
  {
    outs := Distributed(mapf, reducef, hash, n, inputs, glob);
    sequential := Sequential(mapf, reducef, inputs);
    forall r | 0 <= r < n ensures Reduces(reducef, Bucket(hash, n, Pairs(mapf, inputs, |inputs|), r), outs[r]) {
      assert PartReduced(mapf, reducef, hash, n, inputs, r, outs[r]);
    }
    DistributedIsSequential(mapf, reducef, hash, n, inputs, outs, sequential);
  }
}
