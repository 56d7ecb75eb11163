/** Visual audit attempts, and the two-rows-per-pair table their photos are stored in. */
module VisualAudits {
  import opened Wrappers
  import opened WorkflowRuns
  import opened SortedKeys

  datatype PhotoPair = PhotoPair(beforeAsset: AssetId, afterAsset: AssetId)

  datatype AuditStatus = Pending | Running | Succeeded | AuditFailed

  datatype AuditError = PairCount | RepeatedAsset | BlankWork | WrongStatus(status: AuditStatus)

  datatype AuditRow = AuditRow(
    status: AuditStatus,
    pairs: seq<PhotoPair>,
    work: string,
    amountCents: Option<int>,
    currency: string,
    providedPriceUsd: Option<int>,
    result: Option<string>)

  const MAX_PHOTO_PAIRS: nat := 6

  /** The characters Python strips from the ends of a string. */
  predicate IsSpace(c: char) {
    var n := c as int;
    || 0x9 <= n <= 0xD || 0x1C <= n <= 0x20 || n == 0x85 || n == 0xA0 || n == 0x1680
    || 0x2000 <= n <= 0x200A || n == 0x2028 || n == 0x2029 || n == 0x202F || n == 0x205F || n == 0x3000
  }

  predicate Blank(s: string) {
    forall c <- s :: IsSpace(c)
  }

  predicate Distinct(pairs: seq<PhotoPair>) {
    && (forall i, j :: 0 <= i < j < |pairs| ==> pairs[i].beforeAsset != pairs[j].beforeAsset)
    && (forall i, j :: 0 <= i < j < |pairs| ==> pairs[i].afterAsset != pairs[j].afterAsset)
  }

  /** The blank characters of ordinary text, and none of its visible ones. */
  lemma SpacesOfPlainText(c: char)
    ensures c == ' ' || c == '\t' || c == '\n' || c == '\r' ==> IsSpace(c)
    ensures '!' <= c <= '~' ==> !IsSpace(c)
  {
  }

  function Elements(ids: seq<AssetId>): set<AssetId> {
    set id <- ids
  }

  lemma {:induction false} NoRepetitionIff(ids: seq<AssetId>)
    ensures |Elements(ids)| <= |ids|
    ensures |Elements(ids)| == |ids| <==> forall i, j :: 0 <= i < j < |ids| ==> ids[i] != ids[j]
  {
    if ids == [] {
      assert Elements(ids) == {};
    } else {
      var front, last := ids[..|ids| - 1], ids[|ids| - 1];
      NoRepetitionIff(front);
      assert ids == front + [last];
      assert Elements(ids) == Elements(front) + {last};
      if last in front {
        assert Elements(ids) == Elements(front);
      }
    }
  }

  /** Distinct pairs are those with as many different before assets, and after assets, as pairs. */
  lemma DistinctIff(pairs: seq<PhotoPair>)
    ensures Distinct(pairs) <==>
            && |Elements(seq(|pairs|, i requires 0 <= i < |pairs| => pairs[i].beforeAsset))| == |pairs|
            && |Elements(seq(|pairs|, i requires 0 <= i < |pairs| => pairs[i].afterAsset))| == |pairs|
  {
    var befores := seq(|pairs|, i requires 0 <= i < |pairs| => pairs[i].beforeAsset);
    var afters := seq(|pairs|, i requires 0 <= i < |pairs| => pairs[i].afterAsset);
    NoRepetitionIff(befores);
    NoRepetitionIff(afters);
    assert forall i :: 0 <= i < |pairs| ==> befores[i] == pairs[i].beforeAsset && afters[i] == pairs[i].afterAsset;
  }

  function Request(pairs: seq<PhotoPair>, work: string, amountCents: Option<int>, currency: string,
                   providedPriceUsd: Option<int>): Result<AuditRow, AuditError>
  {
    if !(1 <= |pairs| <= MAX_PHOTO_PAIRS) then Failure(PairCount)
    else if !Distinct(pairs) then Failure(RepeatedAsset)
    else if Blank(work) then Failure(BlankWork)
    else Success(AuditRow(Pending, pairs, work, amountCents, currency, providedPriceUsd, None))
  }

  class VisualAuditAttempt {
    var status: AuditStatus
    const pairs: seq<PhotoPair>
    const work: string
    const amountCents: Option<int>
    const currency: string
    const providedPriceUsd: Option<int>
    var result: Option<string>

    function Row(): AuditRow
      reads this
    {
      AuditRow(status, pairs, work, amountCents, currency, providedPriceUsd, result)
    }

    constructor Load(row: AuditRow)
      ensures Row() == row
    {
      status, result := row.status, row.result;
      pairs, work, amountCents := row.pairs, row.work, row.amountCents;
      currency, providedPriceUsd := row.currency, row.providedPriceUsd;
    }

    method Start() returns (r: Outcome<AuditError>)
      modifies this`status
      ensures r.Pass? <==> old(status) == Pending
      ensures Row() == if r.Pass? then old(Row()).(status := Running) else old(Row())
    {
      if status != Pending {
        return Fail(WrongStatus(status));
      }
      status := Running;
      return Pass;
    }

    method Succeed(comparison: string) returns (r: Outcome<AuditError>)
      modifies this`status, this`result
      ensures r.Pass? <==> old(status) == Running
      ensures Row() == if r.Pass? then old(Row()).(status := Succeeded, result := Some(comparison)) else old(Row())
    {
      if status != Running {
        return Fail(WrongStatus(status));
      }
      status := Succeeded;
      result := Some(comparison);
      return Pass;
    }
  }

  // ----- Photo rows -----

  datatype Phase = Before | After

  datatype PhotoRow = PhotoRow(phase: Phase, pairIndex: int, asset: AssetId)

  function RowsOfPair(index: int, pair: PhotoPair): multiset<PhotoRow> {
    multiset{PhotoRow(Before, index, pair.beforeAsset), PhotoRow(After, index, pair.afterAsset)}
  }

  /** The table contents for a pair sequence numbered from one. */
  function RowsOf(pairs: seq<PhotoPair>): multiset<PhotoRow> {
    if pairs == [] then multiset{}
    else RowsOf(pairs[..|pairs| - 1]) + RowsOfPair(|pairs|, pairs[|pairs| - 1])
  }

  method InsertPhotos(pairs: seq<PhotoPair>) returns (table: multiset<PhotoRow>)
    ensures table == RowsOf(pairs)
  {
    table := multiset{};
    for i := 0 to |pairs|
      invariant table == RowsOf(pairs[..i])
    {
      assert pairs[..i + 1][..i] == pairs[..i];
      table := table + RowsOfPair(i + 1, pairs[i]);
    }
    assert pairs[..|pairs|] == pairs;
  }

  type Grouping = map<int, map<Phase, AssetId>>

  function Put(g: Grouping, row: PhotoRow): Grouping {
    g[row.pairIndex := (if row.pairIndex in g then g[row.pairIndex] else map[])[row.phase := row.asset]]
  }

  function Grouped(rows: seq<PhotoRow>): Grouping {
    if rows == [] then map[] else Put(Grouped(rows[..|rows| - 1]), rows[|rows| - 1])
  }

  datatype KeyError = MissingPhase

  /** Reading the grouping back in key order; a pair with one phase missing is an error. */
  function PairsAt(g: Grouping, keys: seq<int>): Result<seq<PhotoPair>, KeyError>
    requires forall i :: 0 <= i < |keys| ==> keys[i] in g
  {
    if keys == [] then Success([])
    else
      var rest :- PairsAt(g, keys[..|keys| - 1]);
      var photos := g[keys[|keys| - 1]];
      if Before !in photos || After !in photos then Failure(MissingPhase)
      else Success(rest + [PhotoPair(photos[Before], photos[After])])
  }

  function Rebuilt(rows: seq<PhotoRow>): Result<seq<PhotoPair>, KeyError> {
    SortedMembers(Grouped(rows).Keys);
    PairsAt(Grouped(rows), Sorted(Grouped(rows).Keys))
  }

  /** The loader: fold the rows into a grouping, then emit one pair per index in order. */
  method LoadPairs(rows: seq<PhotoRow>) returns (r: Result<seq<PhotoPair>, KeyError>)
    ensures r == Rebuilt(rows)
  {
    var g: Grouping := map[];
    for i := 0 to |rows|
      invariant g == Grouped(rows[..i])
    {
      assert rows[..i + 1][..i] == rows[..i];
      g := Put(g, rows[i]);
    }
    assert rows[..|rows|] == rows;
    var keys := Sorted(g.Keys);
    SortedMembers(g.Keys);
    var pairs: seq<PhotoPair> := [];
    for i := 0 to |keys|
      invariant PairsAt(g, keys[..i]) == Success(pairs)
    {
      assert keys[i] in Sorted(g.Keys);
      assert keys[..i + 1][..i] == keys[..i];
      var photos := g[keys[i]];
      if Before !in photos || After !in photos {
        PairsAtFails(g, keys, i + 1);
        return Failure(MissingPhase);
      }
      pairs := pairs + [PhotoPair(photos[Before], photos[After])];
    }
    assert keys[..|keys|] == keys;
    return Success(pairs);
  }

  lemma {:induction false} PairsAtFails(g: Grouping, keys: seq<int>, n: nat)
    requires forall i :: 0 <= i < |keys| ==> keys[i] in g
    requires n <= |keys| && PairsAt(g, keys[..n]) == Failure(MissingPhase)
    ensures PairsAt(g, keys) == Failure(MissingPhase)
    decreases |keys| - n
  {
    if n < |keys| {
      assert keys[..n + 1][..n] == keys[..n];
      PairsAtFails(g, keys, n + 1);
    } else {
      assert keys[..n] == keys;
    }
  }

  /** The asset a pair sequence prescribes for one phase of one index. */
  ghost function AssetOf(pairs: seq<PhotoPair>, phase: Phase, index: int): AssetId
    requires 1 <= index <= |pairs|
  {
    if phase == Before then pairs[index - 1].beforeAsset else pairs[index - 1].afterAsset
  }

  ghost predicate Prescribed(pairs: seq<PhotoPair>, row: PhotoRow) {
    1 <= row.pairIndex <= |pairs| && row.asset == AssetOf(pairs, row.phase, row.pairIndex)
  }

  lemma {:induction false} RowsOfMembers(pairs: seq<PhotoPair>, row: PhotoRow)
    ensures row in RowsOf(pairs) <==> Prescribed(pairs, row)
  {
    if pairs != [] {
      var front, n := pairs[..|pairs| - 1], |pairs|;
      RowsOfMembers(front, row);
      assert row in RowsOfPair(n, pairs[n - 1]) <==> row.pairIndex == n && Prescribed(pairs, row);
      assert row.pairIndex < n ==> (Prescribed(front, row) <==> Prescribed(pairs, row));
    }
  }

  /** Every asset in the grouping is the prescribed one. */
  ghost predicate Agrees(g: Grouping, pairs: seq<PhotoPair>) {
    && (forall k <- g :: 1 <= k <= |pairs|)
    && (forall k <- g, phase <- g[k] :: g[k][phase] == AssetOf(pairs, phase, k))
  }

  ghost predicate Holds(g: Grouping, row: PhotoRow) {
    row.pairIndex in g && row.phase in g[row.pairIndex]
  }

  lemma {:induction false} GroupedLookup(rows: seq<PhotoRow>, pairs: seq<PhotoPair>)
    requires forall row <- rows :: Prescribed(pairs, row)
    ensures Agrees(Grouped(rows), pairs)
    ensures forall row <- rows :: Holds(Grouped(rows), row)
  {
    if rows != [] {
      var front, row := rows[..|rows| - 1], rows[|rows| - 1];
      GroupedLookup(front, pairs);
      assert Prescribed(pairs, row);
      forall r | r in rows
        ensures Holds(Grouped(rows), r)
      {
        assert r == row || r in front;
      }
    }
  }

  ghost predicate HoldsPair(g: Grouping, pairs: seq<PhotoPair>, k: int) {
    && 1 <= k <= |pairs| && k in g
    && g[k] == map[Before := pairs[k - 1].beforeAsset, After := pairs[k - 1].afterAsset]
  }

  lemma {:induction false} PairsAtInterval(g: Grouping, pairs: seq<PhotoPair>, keys: seq<int>)
    requires |keys| <= |pairs|
    requires forall i :: 0 <= i < |keys| ==> keys[i] == i + 1 && HoldsPair(g, pairs, keys[i])
    ensures (forall i :: 0 <= i < |keys| ==> keys[i] in g) && PairsAt(g, keys) == Success(pairs[..|keys|])
  {
    if keys != [] {
      PairsAtInterval(g, pairs, keys[..|keys| - 1]);
      assert HoldsPair(g, pairs, keys[|keys| - 1]);
      assert pairs[..|keys|] == pairs[..|keys| - 1] + [pairs[|keys| - 1]];
    }
  }

  /** The loaded rows hold exactly the prescribed pair at every index. */
  lemma GroupedPairs(pairs: seq<PhotoPair>, rows: seq<PhotoRow>)
    requires forall row :: row in rows <==> Prescribed(pairs, row)
    ensures Grouped(rows).Keys == Interval(1, |pairs|)
    ensures forall k :: 1 <= k <= |pairs| ==> HoldsPair(Grouped(rows), pairs, k)
  {
    var g := Grouped(rows);
    GroupedLookup(rows, pairs);
    forall k | 1 <= k <= |pairs|
      ensures HoldsPair(g, pairs, k)
    {
      assert Holds(g, PhotoRow(Before, k, AssetOf(pairs, Before, k)));
      assert Holds(g, PhotoRow(After, k, AssetOf(pairs, After, k)));
      assert forall phase <- g[k] :: phase == Before || phase == After;
    }
    IntervalMembers(1, |pairs|);
    forall k
      ensures k in g.Keys <==> k in Interval(1, |pairs|)
    {
      if k in Interval(1, |pairs|) {
        assert HoldsPair(g, pairs, k);
      }
    }
  }

  /**
   Writing a pair sequence and loading it again gives it back, whatever order the
   database returns the rows in.
   */
  lemma PhotoPairRoundTrip(pairs: seq<PhotoPair>, rows: seq<PhotoRow>)
    requires multiset(rows) == RowsOf(pairs)
    ensures Rebuilt(rows) == Success(pairs)
  {
    forall row: PhotoRow
      ensures row in rows <==> Prescribed(pairs, row)
    {
      RowsOfMembers(pairs, row);
      assert row in rows <==> row in multiset(rows);
    }
    GroupedPairs(pairs, rows);
    var g := Grouped(rows);
    SortedInterval(1, |pairs|);
    var keys := Sorted(g.Keys);
    forall i | 0 <= i < |keys|
      ensures keys[i] == i + 1 && HoldsPair(g, pairs, keys[i])
    {
    }
    PairsAtInterval(g, pairs, keys);
    assert pairs[..|pairs|] == pairs;
  }
}
