/** The signer pipeline (coursera/hw2/signer.go) with its goroutines,
    channels and wait groups taken away: what is left is a sequential,
    deterministic function of the items fed in.

    Where the program lets the scheduler choose an order (the order in which
    the hash goroutines of one item finish, and the order in which the items
    of one stage reach the next), the model either takes that order as a
    parameter (`completion`) or proves that every order gives the same
    digest. */
module Signer {
  import opened Decimal
  import opened Lexicographic

  /** A value on a pipeline channel (Go's interface{}): an int, a string,
      or a value of any other Go type, named by that type. */
  datatype Item = IntValue(n: int) | StringValue(s: string) | OtherValue(typeName: string)

  /** The result of a computation that may panic. A panic in any goroutine
      ends the whole program, so it is a value that propagates. */
  datatype Outcome<T> = Ok(value: T) | Panic(message: string)

  /** The panic message of getStringFromChannel, spelled as in the program. */
  const UnknownTypeMessage: string := "unnonw type in channel"

  /** The two hash primitives DataSignerCrc32 and DataSignerMd5. Their
      internals are not part of this model: they are any two total
      functions on strings, fixed for one run. */
  datatype Signers = Signers(crc32: string -> string, md5: string -> string)

  /** The result of one hash goroutine: its index and the hash it computed. */
  datatype ExecutionResult = ExecutionResult(order: int, value: string)

  // ---------------------------------------------------------------------
  // Canonical form of an item

  /** getStringFromChannel: an int is written in base 10, a string is kept,
      any other value panics. */
  function GetStringFromChannel(v: Item): (r: Outcome<string>)
    ensures r.Panic? <==> v.OtherValue?
    ensures r.Panic? ==> r.message == UnknownTypeMessage
    ensures v.IntValue? ==> r == Ok(Itoa(v.n)) && Atoi(r.value) == v.n
    ensures v.StringValue? ==> r == Ok(v.s)
  {
    match v
    case IntValue(n) => ItoaRoundTrip(n); Ok(Itoa(n))
    case StringValue(s) => Ok(s)
    case OtherValue(_) => Panic(UnknownTypeMessage)
  }

  // ---------------------------------------------------------------------
  // What each stage computes for one item

  /** The SingleHash digest of a string: crc32(data) + "~" + crc32(md5(data)). */
  function SingleHashOf(h: Signers, data: string): string {
    h.crc32(data) + "~" + h.crc32(h.md5(data))
  }

  /** The six hashes MultiHash computes for a string: hash i is
      crc32(str(i) + data). */
  function SixHashes(h: Signers, data: string): (r: seq<string>)
    ensures |r| == 6
  {
    seq(6, i requires 0 <= i < 6 => h.crc32(Itoa(i) + data))
  }

  /** The strings of ss written one after the other. */
  function Concat(ss: seq<string>): string {
    if ss == [] then "" else Concat(ss[..|ss| - 1]) + ss[|ss| - 1]
  }

  /** The MultiHash digest of a string: its six hashes in index order. */
  function MultiHashOf(h: Signers, data: string): string {
    Concat(SixHashes(h, data))
  }

  /** MultiHash concatenates crc32("0" + data) up to crc32("5" + data),
      in that order. */
  lemma MultiHashSpelledOut(h: Signers, data: string)
    ensures MultiHashOf(h, data)
         == h.crc32("0" + data) + h.crc32("1" + data) + h.crc32("2" + data)
          + h.crc32("3" + data) + h.crc32("4" + data) + h.crc32("5" + data)
  {
    var six := SixHashes(h, data);
    forall i | 0 <= i < 6 ensures six[i] == h.crc32([DigitChar(i)] + data) {
      ItoaDigit(i);
    }
    assert six[..5][..4] == six[..4] && six[..4][..3] == six[..3];
    assert six[..3][..2] == six[..2] && six[..2][..1] == six[..1] && six[..1][..0] == [];
    assert Concat(six[..1]) == six[0];
    assert Concat(six[..2]) == six[0] + six[1];
    assert Concat(six[..3]) == six[0] + six[1] + six[2];
    assert Concat(six[..4]) == six[0] + six[1] + six[2] + six[3];
    assert Concat(six[..5]) == six[0] + six[1] + six[2] + six[3] + six[4];
    assert six == six[..5] + [six[5]];
  }

  /** SingleHash for one item: its canonical string, then its digest. */
  function SingleHashItem(h: Signers, v: Item): Outcome<string> {
    match GetStringFromChannel(v)
    case Ok(data) => Ok(SingleHashOf(h, data))
    case Panic(m) => Panic(m)
  }

  /** MultiHash for one item: its canonical string, then its digest. */
  function MultiHashItem(h: Signers, v: Item): Outcome<string> {
    match GetStringFromChannel(v)
    case Ok(data) => Ok(MultiHashOf(h, data))
    case Panic(m) => Panic(m)
  }

  // ---------------------------------------------------------------------
  // Reassembling results that arrive in completion order

  /** rs holds results for the indices of `expected`: every result has an
      index below |expected| and the value expected at that index, and
      every index has a result. */
  ghost predicate Keyed(rs: seq<ExecutionResult>, expected: seq<string>) {
    && (forall k | 0 <= k < |rs| :: 0 <= rs[k].order < |expected| && rs[k].value == expected[rs[k].order])
    && (forall i | 0 <= i < |expected| :: i in Orders(rs))
  }

  /** The indices the results carry. */
  function Orders(rs: seq<ExecutionResult>): set<int> {
    set k | 0 <= k < |rs| :: rs[k].order
  }

  /** No two results carry the same index. */
  ghost predicate DistinctOrders(rs: seq<ExecutionResult>) {
    forall j, k | 0 <= j < k < |rs| :: rs[j].order != rs[k].order
  }

  /** The map `evaluated` after storing each result under its index, in
      arrival order (a later result for the same index overwrites). */
  function Collected(rs: seq<ExecutionResult>): map<int, string> {
    if rs == [] then map[]
    else Collected(rs[..|rs| - 1])[rs[|rs| - 1].order := rs[|rs| - 1].value]
  }

  /** Go's read of a map: the stored value, or "" for a missing key. */
  function Lookup(m: map<int, string>, k: int): string {
    if k in m then m[k] else ""
  }

  /** evaluated[0] + evaluated[1] + ... + evaluated[n-1]. */
  function ReadBack(m: map<int, string>, n: nat): string {
    if n == 0 then "" else ReadBack(m, n - 1) + Lookup(m, n - 1)
  }

  /** The map holds exactly the indices that arrived, each with a value
      the results carry for it. */
  lemma {:induction false} CollectedContents(rs: seq<ExecutionResult>, expected: seq<string>)
    requires forall k | 0 <= k < |rs| :: 0 <= rs[k].order < |expected| && rs[k].value == expected[rs[k].order]
    ensures Collected(rs).Keys == Orders(rs)
    ensures forall i | i in Collected(rs) :: 0 <= i < |expected| && Collected(rs)[i] == expected[i]
  {
    if rs != [] {
      var init := rs[..|rs| - 1];
      CollectedContents(init, expected);
      OrdersSnoc(rs);
    }
  }

  /** The indices of a sequence of results and of all but its last. */
  lemma OrdersSnoc(rs: seq<ExecutionResult>)
    requires rs != []
    ensures Orders(rs) == Orders(rs[..|rs| - 1]) + {rs[|rs| - 1].order}
  {
    var init := rs[..|rs| - 1];
    forall i | i in Orders(rs) ensures i in Orders(init) + {rs[|rs| - 1].order} {
      var k :| 0 <= k < |rs| && rs[k].order == i;
      if k < |init| {
        assert init[k].order == i;
      }
    }
    forall i | i in Orders(init) ensures i in Orders(rs) {
      var k :| 0 <= k < |init| && init[k].order == i;
      assert rs[k].order == i;
    }
  }

  /** Reading the map back by index gives the expected values in index
      order, whatever order the results arrived in. */
  lemma ReassembleInOrder(rs: seq<ExecutionResult>, expected: seq<string>)
    requires Keyed(rs, expected)
    ensures ReadBack(Collected(rs), |expected|) == Concat(expected)
  {
    CollectedContents(rs, expected);
    ReadBackPrefix(Collected(rs), expected, |expected|);
    assert expected[..|expected|] == expected;
  }

  lemma {:induction false} ReadBackPrefix(m: map<int, string>, expected: seq<string>, n: nat)
    requires n <= |expected|
    requires forall i | 0 <= i < |expected| :: i in m && m[i] == expected[i]
    ensures ReadBack(m, n) == Concat(expected[..n])
  {
    if n > 0 {
      ReadBackPrefix(m, expected, n - 1);
      assert expected[..n][..n - 1] == expected[..n - 1];
    }
  }

  /** Reordering results keeps them keyed by the same values. */
  lemma KeyedReordered(a: seq<ExecutionResult>, b: seq<ExecutionResult>, expected: seq<string>)
    requires Keyed(a, expected)
    requires multiset(a) == multiset(b)
    ensures Keyed(b, expected)
  {
    forall k | 0 <= k < |b| ensures 0 <= b[k].order < |expected| && b[k].value == expected[b[k].order] {
      assert b[k] in multiset(a);
    }
    forall i | 0 <= i < |expected| ensures i in Orders(b) {
      assert i in Orders(a);
      var j :| 0 <= j < |a| && a[j].order == i;
      assert a[j] in multiset(b);
      var k :| 0 <= k < |b| && b[k] == a[j];
      assert b[k].order == i;
    }
  }

  /** A keyed set of results fills the map from each index to its
      expected value, and nothing else. */
  lemma CollectedKeyed(rs: seq<ExecutionResult>, expected: seq<string>)
    requires Keyed(rs, expected)
    ensures Collected(rs) == map i | 0 <= i < |expected| :: expected[i]
  {
    CollectedContents(rs, expected);
  }

  /** Two arrival orders of the same results fill the same map. */
  lemma ArrivalOrderIrrelevant(a: seq<ExecutionResult>, b: seq<ExecutionResult>, expected: seq<string>)
    requires Keyed(a, expected)
    requires multiset(a) == multiset(b)
    ensures Collected(a) == Collected(b)
  {
    KeyedReordered(a, b, expected);
    CollectedKeyed(a, expected);
    CollectedKeyed(b, expected);
  }

  /** A completion order for n goroutines: a list of their indices in
      which every index occurs. */
  ghost predicate IsSchedule(p: seq<nat>, n: nat) {
    && |p| == n
    && (forall k | 0 <= k < n :: p[k] < n)
    && (forall i | 0 <= i < n :: i in p)
  }

  /** The results in the order the schedule lets them finish. */
  function Arrival(rs: seq<ExecutionResult>, p: seq<nat>): (r: seq<ExecutionResult>)
    requires forall k | 0 <= k < |p| :: p[k] < |rs|
    ensures |r| == |p| && forall k | 0 <= k < |p| :: r[k] == rs[p[k]]
  {
    seq(|p|, k requires 0 <= k < |p| => rs[p[k]])
  }

  /** Whatever the completion order, the arrived results are still keyed
      by the expected values. */
  lemma ArrivalKeyed(rs: seq<ExecutionResult>, p: seq<nat>, expected: seq<string>)
    requires Keyed(rs, expected)
    requires IsSchedule(p, |rs|)
    ensures Keyed(Arrival(rs, p), expected)
  {
    var arrived := Arrival(rs, p);
    forall i | 0 <= i < |expected| ensures i in Orders(arrived) {
      assert i in Orders(rs);
      var j :| 0 <= j < |rs| && rs[j].order == i;
      assert j in p;
      var k :| 0 <= k < |p| && p[k] == j;
      assert arrived[k].order == i;
    }
  }

  // ---------------------------------------------------------------------
  // The hash goroutines and the per-item workers

  /** calcHashData: two results, index 0 carrying crc32(data) and index 1
      carrying crc32(md5). */
  method CalcHashData(h: Signers, data: string, md5: string) returns (results: seq<ExecutionResult>)
    ensures |results| == 2 && DistinctOrders(results)
    ensures Keyed(results, [h.crc32(data), h.crc32(md5)])
  {
    results := [ExecutionResult(0, h.crc32(data)), ExecutionResult(1, h.crc32(md5))];
    assert results[0].order == 0 && results[1].order == 1;
  }

  /** calcSixHashes: six results, each index 0..5 exactly once, index i
      carrying crc32(str(i) + data). */
  method CalcSixHashes(h: Signers, data: string) returns (results: seq<ExecutionResult>)
    ensures |results| == 6 && DistinctOrders(results)
    ensures Keyed(results, SixHashes(h, data))
  {
    results := [];
    for i := 0 to 6
      invariant |results| == i
      invariant forall k | 0 <= k < i :: results[k] == ExecutionResult(k, h.crc32(Itoa(k) + data))
    {
      var r := h.crc32(Itoa(i) + data);
      results := results + [ExecutionResult(i, r)];
    }
    forall i | 0 <= i < 6 ensures i in Orders(results) {
      assert results[i].order == i;
    }
  }

  /** The loop that stores each arrived result in `evaluated` under its
      index. */
  method CollectResults(arrived: seq<ExecutionResult>) returns (evaluated: map<int, string>)
    ensures evaluated == Collected(arrived)
  {
    evaluated := map[];
    for k := 0 to |arrived|
      invariant evaluated == Collected(arrived[..k])
    {
      assert arrived[..k + 1][..k] == arrived[..k];
      evaluated := evaluated[arrived[k].order := arrived[k].value];
    }
    assert arrived[..|arrived|] == arrived;
  }

  /** The goroutine SingleHash starts for one item. `completion` is the
      order in which the two crc32 goroutines finish. */
  method SingleHashWorker(h: Signers, value: Item, completion: seq<nat>) returns (out: Outcome<string>)
    requires IsSchedule(completion, 2)
    ensures out == SingleHashItem(h, value)
  {
    var data := GetStringFromChannel(value);
    if data.Panic? {
      return Panic(data.message);
    }
    var md5 := h.md5(data.value);
    var results := CalcHashData(h, data.value, md5);
    var expected := [h.crc32(data.value), h.crc32(md5)];
    ArrivalKeyed(results, completion, expected);
    var arrived := Arrival(results, completion);
    var evaluated := CollectResults(arrived);
    CollectedContents(arrived, expected);
    assert 0 in evaluated && 1 in evaluated;
    out := Ok(Lookup(evaluated, 0) + "~" + Lookup(evaluated, 1));
  }

  /** The goroutine MultiHash starts for one item. `completion` is the
      order in which the six crc32 goroutines finish. */
  method MultiHashWorker(h: Signers, value: Item, completion: seq<nat>) returns (out: Outcome<string>)
    requires IsSchedule(completion, 6)
    ensures out == MultiHashItem(h, value)
  {
    var data := GetStringFromChannel(value);
    if data.Panic? {
      return Panic(data.message);
    }
    var results := CalcSixHashes(h, data.value);
    ArrivalKeyed(results, completion, SixHashes(h, data.value));
    var arrived := Arrival(results, completion);
    var evaluated := CollectResults(arrived);
    var finalResult := "";
    for i := 0 to 6
      invariant finalResult == ReadBack(evaluated, i)
    {
      finalResult := finalResult + Lookup(evaluated, i);
    }
    ReassembleInOrder(arrived, SixHashes(h, data.value));
    out := Ok(finalResult);
  }

  // ---------------------------------------------------------------------
  // Stages

  /** The value of an outcome, or "" for a panic. */
  function ValueOr(o: Outcome<string>): string {
    if o.Ok? then o.value else ""
  }

  /** The per-item work of a stage. */
  datatype Work = SingleHashWork(h: Signers) | MultiHashWork(h: Signers) | Canonical

  function Apply(work: Work, v: Item): Outcome<string> {
    match work
    case SingleHashWork(h) => SingleHashItem(h, v)
    case MultiHashWork(h) => MultiHashItem(h, v)
    case Canonical => GetStringFromChannel(v)
  }

  /** The work done for every item of a stage. The stage succeeds when
      every item does, with one result per item, item by item; else it
      panics with the message of the first item that panics. */
  function Each(work: Work, items: seq<Item>): (r: Outcome<seq<string>>)
    ensures r.Ok? <==> forall i | 0 <= i < |items| :: Apply(work, items[i]).Ok?
    ensures r.Ok? ==> |r.value| == |items| && forall i | 0 <= i < |items| :: r.value[i] == Apply(work, items[i]).value
    ensures r.Panic? ==> exists i | 0 <= i < |items| :: Apply(work, items[i]) == Panic(r.message)
                           && forall j | 0 <= j < i :: Apply(work, items[j]).Ok?
  {
    if items == [] then Ok([])
    else
      match Apply(work, items[0])
      case Panic(m) => Panic(m)
      case Ok(x) =>
        match Each(work, items[1..])
        case Panic(m) =>
          var i :| 0 <= i < |items[1..]| && Apply(work, items[1..][i]) == Panic(m)
                   && forall j | 0 <= j < i :: Apply(work, items[1..][j]).Ok?;
          assert Apply(work, items[i + 1]) == Panic(m);
          Panic(m)
        case Ok(xs) => Ok([x] + xs)
  }

  /** A stage whose every item succeeded produced exactly those results. */
  lemma EachAllOk(work: Work, items: seq<Item>, produced: seq<string>)
    requires |produced| == |items|
    requires forall j | 0 <= j < |items| :: Apply(work, items[j]) == Ok(produced[j])
    ensures Each(work, items) == Ok(produced)
  {
    var all := Each(work, items);
    assert all.Ok?;
    assert all.value == produced;
  }

  /** A stage panics with the message of its first failing item. */
  lemma EachFirstPanic(work: Work, items: seq<Item>, k: nat)
    requires k < |items|
    requires forall j | 0 <= j < k :: Apply(work, items[j]).Ok?
    requires Apply(work, items[k]).Panic?
    ensures Each(work, items) == Panic(Apply(work, items[k]).message)
  {
    var all := Each(work, items);
    assert !all.Ok?;
    var i :| 0 <= i < |items| && Apply(work, items[i]) == Panic(all.message)
             && forall j | 0 <= j < i :: Apply(work, items[j]).Ok?;
    assert i == k;
  }

  /** Strings put on a channel. */
  function Strings(ss: seq<string>): (r: seq<Item>)
    ensures |r| == |ss| && forall i | 0 <= i < |ss| :: r[i] == StringValue(ss[i])
  {
    seq(|ss|, i requires 0 <= i < |ss| => StringValue(ss[i]))
  }

  function Emit(o: Outcome<seq<string>>): Outcome<seq<Item>> {
    match o
    case Ok(ss) => Ok(Strings(ss))
    case Panic(m) => Panic(m)
  }

  /** What SingleHash puts on its output channel, in input order. */
  function SingleHashStage(h: Signers, items: seq<Item>): Outcome<seq<Item>> {
    Emit(Each(SingleHashWork(h), items))
  }

  /** What MultiHash puts on its output channel, in input order. */
  function MultiHashStage(h: Signers, items: seq<Item>): Outcome<seq<Item>> {
    Emit(Each(MultiHashWork(h), items))
  }

  /** What CombineResults puts on its output channel: one string, the
      canonical strings of the inputs sorted and joined with "_". */
  function CombineStage(items: seq<Item>): (r: Outcome<seq<Item>>)
    ensures r.Ok? ==> |r.value| == 1 && r.value[0].StringValue?
  {
    match Each(Canonical, items)
    case Ok(ss) => Ok([StringValue(Join(SortStrings(ss), "_"))])
    case Panic(m) => Panic(m)
  }

  /** The loop of a fanning-out stage: one worker per item, each with its
      own completion order for its hash goroutines. */
  method SingleHash(h: Signers, input: seq<Item>, completions: seq<seq<nat>>) returns (out: Outcome<seq<Item>>)
    requires |completions| == |input|
    requires forall k | 0 <= k < |input| :: IsSchedule(completions[k], 2)
    ensures out == SingleHashStage(h, input)
  {
    var work := SingleHashWork(h);
    var produced: seq<string> := [];
    for k := 0 to |input|
      invariant |produced| == k
      invariant forall j | 0 <= j < k :: Apply(work, input[j]) == Ok(produced[j])
    {
      var r := SingleHashWorker(h, input[k], completions[k]);
      if r.Panic? {
        EachFirstPanic(work, input, k);
        return Panic(r.message);
      }
      produced := produced + [r.value];
    }
    EachAllOk(work, input, produced);
    out := Ok(Strings(produced));
  }

  /** MultiHash: one worker per item, each with its own completion order
      for its six hash goroutines. */
  method MultiHash(h: Signers, input: seq<Item>, completions: seq<seq<nat>>) returns (out: Outcome<seq<Item>>)
    requires |completions| == |input|
    requires forall k | 0 <= k < |input| :: IsSchedule(completions[k], 6)
    ensures out == MultiHashStage(h, input)
  {
    var work := MultiHashWork(h);
    var produced: seq<string> := [];
    for k := 0 to |input|
      invariant |produced| == k
      invariant forall j | 0 <= j < k :: Apply(work, input[j]) == Ok(produced[j])
    {
      var r := MultiHashWorker(h, input[k], completions[k]);
      if r.Panic? {
        EachFirstPanic(work, input, k);
        return Panic(r.message);
      }
      produced := produced + [r.value];
    }
    EachAllOk(work, input, produced);
    out := Ok(Strings(produced));
  }

  /** CombineResults: collect the canonical strings, sort them, join them
      with "_", and emit the one result. */
  method CombineResults(input: seq<Item>) returns (out: Outcome<seq<Item>>)
    ensures out == CombineStage(input)
  {
    var res: seq<string> := [];
    for k := 0 to |input|
      invariant |res| == k
      invariant forall j | 0 <= j < k :: GetStringFromChannel(input[j]) == Ok(res[j])
    {
      var s := GetStringFromChannel(input[k]);
      if s.Panic? {
        EachFirstPanic(Canonical, input, k);
        return Panic(s.message);
      }
      res := res + [s.value];
    }
    EachAllOk(Canonical, input, res);
    res := SortStrings(res);
    var result := Join(res, "_");
    out := Ok([StringValue(result)]);
  }

  // ---------------------------------------------------------------------
  // What a stage promises, and why the order across a channel does not
  // matter

  /** SingleHash emits one string per item, SingleHashOf of the item's
      canonical string, and panics exactly when some item is neither an int
      nor a string. */
  lemma SingleHashStageOneToOne(h: Signers, items: seq<Item>)
    ensures SingleHashStage(h, items).Ok? <==> forall i | 0 <= i < |items| :: !items[i].OtherValue?
    ensures SingleHashStage(h, items).Ok? ==>
      var out := SingleHashStage(h, items).value;
      |out| == |items| &&
      forall i | 0 <= i < |items| :: out[i] == StringValue(SingleHashOf(h, GetStringFromChannel(items[i]).value))
    ensures SingleHashStage(h, items).Panic? ==> SingleHashStage(h, items).message == UnknownTypeMessage
  {
    var e := Each(SingleHashWork(h), items);
    assert forall i | 0 <= i < |items| :: Apply(SingleHashWork(h), items[i]).Ok? <==> !items[i].OtherValue?;
  }

  /** MultiHash emits one string per item, MultiHashOf of the item's
      canonical string, and panics exactly when some item is neither an int
      nor a string. */
  lemma MultiHashStageOneToOne(h: Signers, items: seq<Item>)
    ensures MultiHashStage(h, items).Ok? <==> forall i | 0 <= i < |items| :: !items[i].OtherValue?
    ensures MultiHashStage(h, items).Ok? ==>
      var out := MultiHashStage(h, items).value;
      |out| == |items| &&
      forall i | 0 <= i < |items| :: out[i] == StringValue(MultiHashOf(h, GetStringFromChannel(items[i]).value))
    ensures MultiHashStage(h, items).Panic? ==> MultiHashStage(h, items).message == UnknownTypeMessage
  {
    var e := Each(MultiHashWork(h), items);
    assert forall i | 0 <= i < |items| :: Apply(MultiHashWork(h), items[i]).Ok? <==> !items[i].OtherValue?;
  }

  /** f applied to every element of s. */
  function MapSeq<A, B>(f: A -> B, s: seq<A>): (r: seq<B>)
    ensures |r| == |s| && forall i | 0 <= i < |s| :: r[i] == f(s[i])
  {
    seq(|s|, i requires 0 <= i < |s| => f(s[i]))
  }

  /** s without its element at index j. */
  function RemoveAt<A>(s: seq<A>, j: nat): (r: seq<A>)
    requires j < |s|
    ensures multiset(r) == multiset(s) - multiset{s[j]}
  {
    assert s == s[..j] + [s[j]] + s[j + 1..];
    s[..j] + s[j + 1..]
  }

  lemma MapRemoveAt<A, B>(f: A -> B, s: seq<A>, j: nat)
    requires j < |s|
    ensures multiset(MapSeq(f, s)) == multiset(MapSeq(f, RemoveAt(s, j))) + multiset{f(s[j])}
  {
    var m := MapSeq(f, s);
    assert m == m[..j] + [m[j]] + m[j + 1..];
    assert MapSeq(f, RemoveAt(s, j)) == m[..j] + m[j + 1..];
  }

  /** Mapping two orderings of the same elements gives two orderings of
      the same images. */
  lemma {:induction false} MapReordered<A, B>(f: A -> B, a: seq<A>, b: seq<A>)
    requires multiset(a) == multiset(b)
    ensures multiset(MapSeq(f, a)) == multiset(MapSeq(f, b))
    decreases |a|
  {
    if a == [] {
      assert |b| == |multiset(b)| == 0;
    } else {
      assert a[0] in multiset(b);
      var j :| 0 <= j < |b| && b[j] == a[0];
      MapRemoveAt(f, a, 0);
      MapRemoveAt(f, b, j);
      assert RemoveAt(a, 0) == a[1..];
      MapReordered(f, a[1..], RemoveAt(b, j));
    }
  }

  /** Every panic of the per-item work carries the message of
      getStringFromChannel. */
  lemma ApplyPanicMessage(work: Work, v: Item)
    ensures Apply(work, v).Panic? <==> v.OtherValue?
    ensures Apply(work, v).Panic? ==> Apply(work, v) == Panic(UnknownTypeMessage)
  {
  }

  /** A stage's work on two orderings of the same items: both succeed or
      both panic with the same message, and when they succeed they emit the
      same strings in some order. */
  lemma EachReordered(work: Work, a: seq<Item>, b: seq<Item>)
    requires multiset(a) == multiset(b)
    ensures Each(work, a).Ok? <==> Each(work, b).Ok?
    ensures Each(work, a).Ok? ==> multiset(Each(work, a).value) == multiset(Each(work, b).value)
    ensures Each(work, a).Panic? ==> Each(work, a) == Each(work, b)
  {
    EachOkReordered(work, a, b);
    var ea, eb := Each(work, a), Each(work, b);
    if ea.Ok? {
      var f := v => ValueOr(Apply(work, v));
      MapReordered(f, a, b);
      assert ea.value == MapSeq(f, a);
      assert eb.value == MapSeq(f, b);
    } else {
      var i :| 0 <= i < |a| && Apply(work, a[i]) == Panic(ea.message);
      var j :| 0 <= j < |b| && Apply(work, b[j]) == Panic(eb.message);
      ApplyPanicMessage(work, a[i]);
      ApplyPanicMessage(work, b[j]);
    }
  }

  lemma EachOkReordered(work: Work, a: seq<Item>, b: seq<Item>)
    requires multiset(a) == multiset(b)
    ensures Each(work, a).Ok? <==> Each(work, b).Ok?
  {
    forall i | 0 <= i < |a| ensures Apply(work, a[i]).Ok? <==> !a[i].OtherValue? {
      ApplyPanicMessage(work, a[i]);
    }
    forall j | 0 <= j < |b| ensures Apply(work, b[j]).Ok? <==> !b[j].OtherValue? {
      ApplyPanicMessage(work, b[j]);
    }
    if exists i :: 0 <= i < |a| && a[i].OtherValue? {
      var i :| 0 <= i < |a| && a[i].OtherValue?;
      assert a[i] in multiset(b);
      var j :| 0 <= j < |b| && b[j] == a[i];
    }
    if exists j :: 0 <= j < |b| && b[j].OtherValue? {
      var j :| 0 <= j < |b| && b[j].OtherValue?;
      assert b[j] in multiset(a);
      var i :| 0 <= i < |a| && a[i] == b[j];
    }
  }

  /** Strings read back as themselves. */
  lemma CanonicalStrings(ss: seq<string>)
    ensures Each(Canonical, Strings(ss)) == Ok(ss)
  {
    var e := Each(Canonical, Strings(ss));
    assert e.value == ss;
  }

  /** Reordering strings before they are put on a channel reorders the
      items on the channel. */
  lemma StringsReordered(x: seq<string>, y: seq<string>)
    requires multiset(x) == multiset(y)
    ensures multiset(Strings(x)) == multiset(Strings(y))
  {
    var f := s => StringValue(s);
    MapReordered(f, x, y);
    assert Strings(x) == MapSeq(f, x);
    assert Strings(y) == MapSeq(f, y);
  }

  /** CombineResults emits the same digest for every order of its input. */
  lemma CombineOrderInvariant(a: seq<Item>, b: seq<Item>)
    requires multiset(a) == multiset(b)
    ensures CombineStage(a) == CombineStage(b)
  {
    EachReordered(Canonical, a, b);
    if Each(Canonical, a).Ok? {
      SortOrderInvariant(Each(Canonical, a).value, Each(Canonical, b).value);
    }
  }

  /** With no input CombineResults emits the empty string. */
  lemma CombineEmpty()
    ensures CombineStage([]) == Ok([StringValue("")])
  {
    assert Each(Canonical, []) == Ok([]);
  }

  /** The canonical strings of items, none containing sep when no item's
      does. */
  lemma CanonicalFree(items: seq<Item>, sep: char) returns (ss: seq<string>)
    requires forall i | 0 <= i < |items| :: !items[i].OtherValue?
    requires forall i | 0 <= i < |items| :: sep !in GetStringFromChannel(items[i]).value
    ensures Each(Canonical, items) == Ok(ss)
    ensures forall i | 0 <= i < |ss| :: sep !in ss[i]
  {
    ss := Each(Canonical, items).value;
    forall i | 0 <= i < |ss| ensures sep !in ss[i] {
      assert ss[i] == GetStringFromChannel(items[i]).value;
    }
  }

  /** The one string CombineResults emits once every item is readable. */
  lemma CombineStageOk(items: seq<Item>, ss: seq<string>)
    requires Each(Canonical, items) == Ok(ss)
    ensures CombineStage(items) == Ok([StringValue(Join(SortStrings(ss), ['_']))])
  {
  }

  /** CombineResults emits exactly one value, the canonical strings in
      ascending order joined with "_"; when none of them contains "_",
      splitting the digest at "_" gives them back in that order. */
  lemma CombineJoinsSorted(items: seq<Item>)
    requires |items| >= 1
    requires forall i | 0 <= i < |items| :: !items[i].OtherValue?
    requires forall i | 0 <= i < |items| :: '_' !in GetStringFromChannel(items[i]).value
    ensures CombineStage(items).Ok?
    ensures var parts := Split(CombineStage(items).value[0].s, '_');
            Sorted(parts) && multiset(parts) == multiset(Each(Canonical, items).value)
  {
    var ss := CanonicalFree(items, '_');
    CombineStageOk(items, ss);
    SortedJoinSplits(ss, '_');
  }

  // ---------------------------------------------------------------------
  // The pipeline

  /** A job: reads everything on its input channel and writes its output
      channel. A panic in a job ends the run. */
  type Job = seq<Item> -> Outcome<seq<Item>>

  /** The jobs run one after the other, job k's output feeding job k+1. */
  function Run(jobs: seq<Job>, input: seq<Item>): Outcome<seq<Item>>
    decreases |jobs|
  {
    if jobs == [] then Ok(input)
    else
      match jobs[0](input)
      case Ok(next) => Run(jobs[1..], next)
      case Panic(m) => Panic(m)
  }

  /** Feeds an outcome to further jobs, passing a panic on. */
  function Then(o: Outcome<seq<Item>>, jobs: seq<Job>): Outcome<seq<Item>> {
    match o
    case Ok(items) => Run(jobs, items)
    case Panic(m) => Panic(m)
  }

  /** Running a + b is running a, then b on what a produced. */
  lemma {:induction false} RunAppend(a: seq<Job>, b: seq<Job>, input: seq<Item>)
    ensures Run(a + b, input) == Then(Run(a, input), b)
    decreases |a|
  {
    if a == [] {
      assert a + b == b;
    } else {
      assert (a + b)[0] == a[0] && (a + b)[1..] == a[1..] + b;
      var step := a[0](input);
      if step.Ok? {
        RunAppend(a[1..], b, step.value);
        assert Run(a + b, input) == Run(a[1..] + b, step.value);
        assert Run(a, input) == Run(a[1..], step.value);
      } else {
        assert Run(a + b, input) == Panic(step.message);
        assert Run(a, input) == Panic(step.message);
      }
    }
  }

  /** ExecutePipeline: job k reads the channel job k-1 writes. The first
      job's input is a parameter. */
  method ExecutePipeline(jobs: seq<Job>, input: seq<Item>) returns (r: Outcome<seq<Item>>)
    ensures r == Run(jobs, input)
  {
    var stream := input;
    for k := 0 to |jobs|
      invariant Run(jobs, input) == Run(jobs[k..], stream)
    {
      assert jobs[k..][1..] == jobs[k + 1..];
      var next := jobs[k](stream);
      if next.Panic? {
        return Panic(next.message);
      }
      stream := next.value;
    }
    r := Ok(stream);
  }

  /** The three stages of the signer, in order. */
  function SignerJobs(h: Signers): seq<Job> {
    [items => SingleHashStage(h, items), items => MultiHashStage(h, items), CombineStage]
  }

  /** The signer's stages applied in turn, a panic ending the run. */
  function SignerStages(h: Signers, items: seq<Item>): Outcome<seq<Item>> {
    match SingleHashStage(h, items)
    case Panic(m) => Panic(m)
    case Ok(first) =>
      match MultiHashStage(h, first)
      case Panic(m) => Panic(m)
      case Ok(second) => CombineStage(second)
  }

  /** Running the signer's jobs through the pipeline applies its stages
      in argument order. */
  lemma SignerRunIsStages(h: Signers, items: seq<Item>)
    ensures Run(SignerJobs(h), items) == SignerStages(h, items)
  {
    var jobs := SignerJobs(h);
    assert jobs[1..][1..][1..] == [];
    var first := SingleHashStage(h, items);
    assert jobs[0](items) == first;
    if first.Ok? {
      var second := MultiHashStage(h, first.value);
      assert jobs[1..][0](first.value) == second;
      assert Run(jobs, items) == Run(jobs[1..], first.value);
      if second.Ok? {
        var third := CombineStage(second.value);
        assert jobs[1..][1..][0](second.value) == third;
        assert Run(jobs[1..], first.value) == Run(jobs[1..][1..], second.value);
        if third.Ok? {
          assert Run(jobs[1..][1..], second.value) == Run([], third.value);
        }
      }
    }
  }

  /** The digest of one item: MultiHash of SingleHash of its canonical
      string. */
  function ItemDigest(h: Signers, v: Item): string {
    MultiHashOf(h, SingleHashOf(h, ValueOr(GetStringFromChannel(v))))
  }

  /** The signer run panics exactly when some item is neither an int nor a
      string; otherwise it emits one value: the item digests sorted and
      joined with "_". */
  lemma SignerDigest(h: Signers, items: seq<Item>)
    ensures Run(SignerJobs(h), items).Ok? <==> forall i | 0 <= i < |items| :: !items[i].OtherValue?
    ensures Run(SignerJobs(h), items).Ok? ==>
      Run(SignerJobs(h), items).value
        == [StringValue(Join(SortStrings(MapSeq(v => ItemDigest(h, v), items)), "_"))]
  {
    SignerRunIsStages(h, items);
    SingleHashStageOneToOne(h, items);
    var first := SingleHashStage(h, items);
    if first.Ok? {
      MultiHashStageOneToOne(h, first.value);
      var second := MultiHashStage(h, first.value);
      var digests := MapSeq(v => ItemDigest(h, v), items);
      CanonicalStrings(digests);
      assert second.value == Strings(digests);
    }
  }

  /** The items a stage emits; none when it panics. */
  function Emitted(o: Outcome<seq<Item>>): seq<Item> {
    if o.Ok? then o.value else []
  }

  /** Whatever order the items of one stage reach the next stage in, the
      run emits the same digest. */
  lemma SignerDeliveryOrderIrrelevant(h: Signers, items: seq<Item>, first: seq<Item>, second: seq<Item>)
    requires SingleHashStage(h, items).Ok?
    requires multiset(first) == multiset(SingleHashStage(h, items).value)
    requires multiset(second) == multiset(Emitted(MultiHashStage(h, first)))
    ensures MultiHashStage(h, first).Ok?
    ensures CombineStage(second) == Run(SignerJobs(h), items)
  {
    SignerRunIsStages(h, items);
    var s1 := SingleHashStage(h, items).value;
    forall i | 0 <= i < |first| ensures !first[i].OtherValue? {
      assert first[i] in multiset(s1);
    }
    MultiHashStageOneToOne(h, first);
    EachReordered(MultiHashWork(h), first, s1);
    var m1 := Each(MultiHashWork(h), first).value;
    var m0 := Each(MultiHashWork(h), s1).value;
    StringsReordered(m1, m0);
    CombineOrderInvariant(second, Strings(m0));
  }

  /** The digest does not depend on the order in which the items are fed
      in. */
  lemma SignerInputOrderIrrelevant(h: Signers, a: seq<Item>, b: seq<Item>)
    requires multiset(a) == multiset(b)
    ensures Run(SignerJobs(h), a) == Run(SignerJobs(h), b)
  {
    SignerRunIsStages(h, a);
    SignerRunIsStages(h, b);
    EachReordered(SingleHashWork(h), a, b);
    if Each(SingleHashWork(h), a).Ok? {
      var sa, sb := Each(SingleHashWork(h), a).value, Each(SingleHashWork(h), b).value;
      StringsReordered(sa, sb);
      EachReordered(MultiHashWork(h), Strings(sa), Strings(sb));
      if Each(MultiHashWork(h), Strings(sa)).Ok? {
        var ma, mb := Each(MultiHashWork(h), Strings(sa)).value, Each(MultiHashWork(h), Strings(sb)).value;
        StringsReordered(ma, mb);
        CombineOrderInvariant(Strings(ma), Strings(mb));
      }
    }
  }
}
