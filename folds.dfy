/** Loops that thread a state through a list and stop at the first element
    that raises, and loops that build a dict from a list. */
module Folds {
  import opened Common
  import opened Seqs
  import opened Ordered

  /** Runs `step` over `xs` from `st`, in order, stopping at the first error. */
  function Fold<S, T>(st: S, xs: seq<T>, step: (S, T) -> Result<S>): Result<S> {
    if xs == [] then Ok(st)
    else
      var st' :- Fold(st, xs[..|xs| - 1], step);
      step(st', xs[|xs| - 1])
  }

  lemma FoldSnoc<S, T>(st: S, xs: seq<T>, x: T, step: (S, T) -> Result<S>)
    ensures Fold(st, xs + [x], step) == (if Fold(st, xs, step).Err? then Fold(st, xs, step) else step(Fold(st, xs, step).value, x))
  {
    assert (xs + [x])[..|xs|] == xs;
  }

  /** One more pass of the loop over a prefix, whether or not it failed. */
  lemma FoldPrefix<S, T>(st: S, xs: seq<T>, i: int, step: (S, T) -> Result<S>)
    requires 0 <= i < |xs|
    ensures var f := Fold(st, xs[..i], step);
      Fold(st, xs[..i + 1], step) == if f.Err? then f else step(f.value, xs[i])
  {
    assert xs[..i + 1][..i] == xs[..i];
  }

  /** One more pass of the loop over a prefix. */
  lemma FoldNext<S, T>(st: S, xs: seq<T>, i: int, step: (S, T) -> Result<S>, s: S)
    requires 0 <= i < |xs| && Fold(st, xs[..i], step) == Ok(s)
    ensures Fold(st, xs[..i + 1], step) == step(s, xs[i])
  {
    assert xs[..i + 1][..i] == xs[..i];
  }

  /** Once the loop has raised, the rest of the list is never looked at. */
  lemma {:induction false} FoldStops<S, T>(st: S, xs: seq<T>, j: int, step: (S, T) -> Result<S>)
    requires 0 <= j <= |xs| && Fold(st, xs[..j], step).Err?
    ensures Fold(st, xs, step) == Fold(st, xs[..j], step)
  {
    if j < |xs| {
      assert xs[..|xs| - 1][..j] == xs[..j];
      FoldStops(st, xs[..|xs| - 1], j, step);
    } else {
      assert xs[..j] == xs;
    }
  }

  /** A property every step keeps holds after the whole loop. */
  lemma {:induction false} FoldKeeps<S, T>(st: S, xs: seq<T>, step: (S, T) -> Result<S>, inv: S -> bool)
    requires inv(st)
    requires forall s, x :: inv(s) && step(s, x).Ok? ==> inv(step(s, x).value)
    requires Fold(st, xs, step).Ok?
    ensures inv(Fold(st, xs, step).value)
  {
    if xs != [] {
      FoldKeeps(st, xs[..|xs| - 1], step, inv);
    }
  }

  /** A property that every step keeps, and that a step over an element
      satisfying `q` brings about, holds after a loop over such an element. */
  lemma {:induction false} FoldReaches<S, T>(st: S, xs: seq<T>, step: (S, T) -> Result<S>, inv: S -> bool, q: T -> bool, i: int)
    requires 0 <= i < |xs| && q(xs[i])
    requires forall s, x :: (inv(s) || q(x)) && step(s, x).Ok? ==> inv(step(s, x).value)
    requires Fold(st, xs, step).Ok?
    ensures inv(Fold(st, xs, step).value)
  {
    var n := |xs|;
    if i < n - 1 {
      FoldReaches(st, xs[..n - 1], step, inv, q, i);
    }
  }

  /** A counter that every step raises by one exactly on the elements
      satisfying `p` ends up raised by their number. */
  lemma {:induction false} FoldCounts<S, T>(st: S, xs: seq<T>, step: (S, T) -> Result<S>, counter: S -> int, p: T -> bool)
    requires forall s, x :: step(s, x).Ok? ==> counter(step(s, x).value) == counter(s) + (if p(x) then 1 else 0)
    requires Fold(st, xs, step).Ok?
    ensures counter(Fold(st, xs, step).value) == counter(st) + Count(xs, p)
  {
    if xs != [] {
      var n := |xs|;
      FoldCounts(st, xs[..n - 1], step, counter, p);
      CountSnoc(xs[..n - 1], xs[n - 1], p);
      assert xs[..n - 1] + [xs[n - 1]] == xs;
    }
  }

  lemma {:induction false} CountSnoc<T>(s: seq<T>, x: T, p: T -> bool)
    ensures Count(s + [x], p) == Count(s, p) + (if p(x) then 1 else 0)
  {
    if s == [] {
      assert [x][1..] == [];
    } else {
      assert (s + [x])[1..] == s[1..] + [x];
      CountSnoc(s[1..], x, p);
    }
  }

  /** What one pass of a dict-building loop does with an element. */
  datatype Entry<K, V> = Raise(error: Error) | Skip | Store(key: K, value: V)

  /** `m = {}; for x in xs: ... m[key] = value`: the dict built by a loop
      whose passes raise, skip or store. */
  function Build<T, K(==), V>(xs: seq<T>, f: T -> Entry<K, V>): Result<Assoc<K, V>> {
    if xs == [] then Ok([])
    else
      var m :- Build(xs[..|xs| - 1], f);
      Pass(m, f(xs[|xs| - 1]))
  }

  /** The dict after one pass. */
  function Pass<K(==), V>(m: Assoc<K, V>, e: Entry<K, V>): Result<Assoc<K, V>> {
    match e
    case Raise(err) => Err(err)
    case Skip => Ok(m)
    case Store(k, v) => Ok(Upsert(m, k, v))
  }

  /** One more pass of the loop over a prefix. */
  lemma BuildNext<T, K, V>(xs: seq<T>, i: int, f: T -> Entry<K, V>, m: Assoc<K, V>)
    requires 0 <= i < |xs| && Build(xs[..i], f) == Ok(m)
    ensures Build(xs[..i + 1], f) == Pass(m, f(xs[i]))
  {
    assert xs[..i + 1][..i] == xs[..i];
  }

  /** Once the loop has raised, the rest of the list is never looked at. */
  lemma {:induction false} BuildStops<T, K, V>(xs: seq<T>, j: int, f: T -> Entry<K, V>)
    requires 0 <= j <= |xs| && Build(xs[..j], f).Err?
    ensures Build(xs, f) == Build(xs[..j], f)
  {
    if j < |xs| {
      assert xs[..|xs| - 1][..j] == xs[..j];
      BuildStops(xs[..|xs| - 1], j, f);
    } else {
      assert xs[..j] == xs;
    }
  }

  /** The pair an element stores, if it stores one. */
  function Stored<T, K, V>(f: T -> Entry<K, V>): T -> Option<(K, V)> {
    x => if f(x).Store? then Some((f(x).key, f(x).value)) else None
  }

  /** The loop raises iff some element raises; otherwise the dict is the one
      built from the stored pairs, a later pair for a key replacing an
      earlier one. */
  lemma {:induction false} BuildSpec<T, K, V>(xs: seq<T>, f: T -> Entry<K, V>)
    ensures Build(xs, f).Err? <==> exists i :: 0 <= i < |xs| && f(xs[i]).Raise?
    ensures Build(xs, f).Ok? ==> Build(xs, f).value == FromPairs(CollectPairs(xs, Stored(f)))
  {
    if xs != [] {
      var n := |xs|;
      var init := xs[..n - 1];
      BuildSpec(init, f);
      forall i | 0 <= i < n - 1 ensures init[i] == xs[i] { }
      var g := Stored(f);
      var x := xs[n - 1];
      assert CollectPairs(xs, g) == CollectPairs(init, g) + (if g(x).Some? then [g(x).value] else []);
      if Build(init, f).Ok? && f(x).Store? {
        assert g(x) == Some((f(x).key, f(x).value));
        FromPairsSnoc(CollectPairs(init, g), g(x).value);
      } else if f(x).Skip? {
        assert g(x) == None;
        assert CollectPairs(xs, g) == CollectPairs(init, g);
      }
    }
  }

  /** An element the loop skips can be taken out without changing the result. */
  lemma {:induction false} BuildSkips<T, K, V>(a: seq<T>, x: T, b: seq<T>, f: T -> Entry<K, V>)
    requires f(x).Skip?
    ensures Build(a + [x] + b, f) == Build(a + b, f)
  {
    if b == [] {
      assert (a + [x] + b)[..|a|] == a;
      assert a + b == a;
    } else {
      var n := |b|;
      assert (a + [x] + b)[..|a + [x] + b| - 1] == a + [x] + b[..n - 1];
      assert (a + [x] + b)[|a + [x] + b| - 1] == b[n - 1];
      assert (a + b)[..|a + b| - 1] == a + b[..n - 1];
      assert (a + b)[|a + b| - 1] == b[n - 1];
      BuildSkips(a, x, b[..n - 1], f);
    }
  }

  /** A key holds the value of the last element that stores it. */
  lemma BuildLastWins<T, K, V>(xs: seq<T>, f: T -> Entry<K, V>, k: K, i: int)
    requires Build(xs, f).Ok?
    requires 0 <= i < |xs| && f(xs[i]).Store? && f(xs[i]).key == k
    requires forall j :: i < j < |xs| && f(xs[j]).Store? ==> f(xs[j]).key != k
    ensures Get(Build(xs, f).value, k) == Some(f(xs[i]).value)
  {
    BuildSpec(xs, f);
    CollectLastWins(xs, Stored(f), k, i);
  }

  /** A key that no element stores is absent from the dict. */
  lemma BuildAbsent<T, K, V>(xs: seq<T>, f: T -> Entry<K, V>, k: K)
    requires Build(xs, f).Ok?
    requires forall j :: 0 <= j < |xs| && f(xs[j]).Store? ==> f(xs[j]).key != k
    ensures Get(Build(xs, f).value, k) == None
  {
    BuildSpec(xs, f);
    CollectAbsent(xs, Stored(f), k);
  }

  /** `xs[1:]`: the list without its first element (a header row). */
  function Tail<T>(xs: seq<T>): seq<T> {
    if xs == [] then [] else xs[1..]
  }

  /** Over `xs[1:]`, the loop raises iff some element after the first raises. */
  lemma BuildTailRaises<T, K, V>(xs: seq<T>, f: T -> Entry<K, V>)
    ensures Build(Tail(xs), f).Err? <==> exists i :: 1 <= i < |xs| && f(xs[i]).Raise?
  {
    var data := Tail(xs);
    BuildSpec(data, f);
    if Build(data, f).Err? {
      var i :| 0 <= i < |data| && f(data[i]).Raise?;
      assert data[i] == xs[i + 1];
    } else {
      forall i | 1 <= i < |xs| ensures !f(xs[i]).Raise? {
        assert data[i - 1] == xs[i];
      }
    }
  }

  /** Over `xs[1:]`, a key holds the value of the last element after the
      first that stores it. */
  lemma BuildTailLastWins<T, K, V>(xs: seq<T>, f: T -> Entry<K, V>, k: K, i: int)
    requires Build(Tail(xs), f).Ok?
    requires 1 <= i < |xs| && f(xs[i]).Store? && f(xs[i]).key == k
    requires forall j :: i < j < |xs| && f(xs[j]).Store? ==> f(xs[j]).key != k
    ensures Get(Build(Tail(xs), f).value, k) == Some(f(xs[i]).value)
  {
    var data := Tail(xs);
    assert data[i - 1] == xs[i];
    forall j | i - 1 < j < |data| && f(data[j]).Store? ensures f(data[j]).key != k {
      assert data[j] == xs[j + 1];
    }
    BuildLastWins(data, f, k, i - 1);
  }

  /** Over `xs[1:]`, a key that no element after the first stores is
      absent. */
  lemma BuildTailAbsent<T, K, V>(xs: seq<T>, f: T -> Entry<K, V>, k: K)
    requires Build(Tail(xs), f).Ok?
    requires forall j :: 1 <= j < |xs| && f(xs[j]).Store? ==> f(xs[j]).key != k
    ensures Get(Build(Tail(xs), f).value, k) == None
  {
    var data := Tail(xs);
    forall j | 0 <= j < |data| && f(data[j]).Store? ensures f(data[j]).key != k {
      assert data[j] == xs[j + 1];
    }
    BuildAbsent(data, f, k);
  }

  /** The first pass of a loop, seen from the front. */
  lemma {:induction false} FoldCons<S, T>(st: S, xs: seq<T>, step: (S, T) -> Result<S>)
    requires xs != []
    ensures Fold(st, xs, step) == if step(st, xs[0]).Err? then step(st, xs[0]) else Fold(step(st, xs[0]).value, xs[1..], step)
  {
    var n := |xs|;
    if n > 1 {
      var init := xs[..n - 1];
      FoldCons(st, init, step);
      assert init[0] == xs[0] && init[1..] == xs[1..][..n - 2];
      assert xs[1..][n - 2] == xs[n - 1];
    } else {
      assert xs[..0] == [];
      assert xs[1..] == [];
    }
  }

  /** What one pass of a loop that may `return` or `break` early does. */
  datatype Flow<S> = Fail(error: Error) | Stop | Go(state: S)

  /** A loop over `xs` from `st` that ends at the first element whose pass
      raises or stops it. */
  function Scan<S, T>(st: S, xs: seq<T>, step: (S, T) -> Flow<S>): Result<S>
    decreases |xs|, 0
  {
    if xs == [] then Ok(st)
    else Then(st, step(st, xs[0]), xs[1..], step)
  }

  /** The rest of the loop after a pass with outcome `flow` from `st`. */
  function Then<S, T>(st: S, flow: Flow<S>, rest: seq<T>, step: (S, T) -> Flow<S>): Result<S>
    decreases |rest|, 1
  {
    match flow
    case Fail(e) => Err(e)
    case Stop => Ok(st)
    case Go(s) => Scan(s, rest, step)
  }

  /** One pass of the loop at position `i`. */
  lemma ScanNext<S, T>(st: S, xs: seq<T>, i: int, step: (S, T) -> Flow<S>)
    requires 0 <= i < |xs|
    ensures Scan(st, xs[i..], step) == Then(st, step(st, xs[i]), xs[i + 1..], step)
  {
    assert xs[i..][0] == xs[i] && xs[i..][1..] == xs[i + 1..];
  }

  /** An element that stops the loop in every state: nothing after it is
      looked at. */
  lemma {:induction false} ScanStopsAt<S, T>(st: S, xs: seq<T>, k: int, step: (S, T) -> Flow<S>)
    requires 0 <= k < |xs|
    requires forall s :: step(s, xs[k]) == Stop
    ensures Scan(st, xs, step) == Scan(st, xs[..k], step)
  {
    if k > 0 {
      assert xs[..k][0] == xs[0] && xs[..k][1..] == xs[1..][..k - 1];
      var flow := step(st, xs[0]);
      if flow.Go? {
        ScanStopsAt(flow.state, xs[1..], k - 1, step);
      }
    }
  }

  /** A loop whose passes never stop while `inv` holds, and which agree with
      those of `fstep`, is the plain loop over `fstep`. */
  lemma {:induction false} ScanAsFold<S, T>(st: S, xs: seq<T>, step: (S, T) -> Flow<S>, fstep: (S, T) -> Result<S>, inv: S -> bool)
    requires inv(st)
    requires forall s, x :: inv(s) ==>
      && (fstep(s, x).Err? ==> step(s, x) == Fail(fstep(s, x).error))
      && (fstep(s, x).Ok? ==> step(s, x) == Go(fstep(s, x).value) && inv(fstep(s, x).value))
    ensures Scan(st, xs, step) == Fold(st, xs, fstep)
    decreases |xs|
  {
    if xs != [] {
      FoldCons(st, xs, fstep);
      var r := fstep(st, xs[0]);
      if r.Ok? {
        ScanAsFold(r.value, xs[1..], step, fstep, inv);
      }
    }
  }

  /** A property every continuing pass keeps holds when the loop ends. */
  lemma {:induction false} ScanKeeps<S, T>(st: S, xs: seq<T>, step: (S, T) -> Flow<S>, inv: S -> bool)
    requires inv(st)
    requires forall s, x :: inv(s) && step(s, x).Go? ==> inv(step(s, x).state)
    requires Scan(st, xs, step).Ok?
    ensures inv(Scan(st, xs, step).value)
    decreases |xs|
  {
    if xs != [] {
      var f := step(st, xs[0]);
      if f.Go? {
        ScanKeeps(f.state, xs[1..], step, inv);
      }
    }
  }
}
