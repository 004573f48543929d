/**
 * The SQS batch response builder `LambdaSqsResponse`: an append-only list
 * of failed message ids with duplicates suppressed, and a terminal `json`
 * that maps it to `{ batchItemFailures: [{ itemIdentifier }, ...] }`.
 */
module LambdaSqs {

  datatype BatchItemFailure = BatchItemFailure(itemIdentifier: string)
  datatype BatchResponse = BatchResponse(batchItemFailures: seq<BatchItemFailure>)

  predicate NoDuplicates(s: seq<string>)
  {
    forall i, j :: 0 <= i < j < |s| ==> s[i] != s[j]
  }

  /** The list after `addFailure(id)`: `id` appended unless already present. */
  function AddUnique(s: seq<string>, id: string): (r: seq<string>)
    ensures s <= r
    ensures |r| == if id in s then |s| else |s| + 1
    ensures forall x :: x in r <==> x in s || x == id
    ensures NoDuplicates(s) ==> NoDuplicates(r)
  {
    if id in s then s else s + [id]
  }

  /** `_failed.includes(id)`: a linear scan with exact, case-sensitive comparison. */
  method Includes(s: seq<string>, id: string) returns (found: bool)
    ensures found <==> id in s
  {
    var i := 0;
    while i < |s|
      invariant 0 <= i <= |s|
      invariant id !in s[..i]
    {
      if s[i] == id {
        return true;
      }
      assert s[..i + 1] == s[..i] + [s[i]];
      i := i + 1;
    }
    assert s[..i] == s;
    return false;
  }

  /** `ids.map(id => ({ itemIdentifier: id }))`. */
  function ItemFailures(ids: seq<string>): (r: seq<BatchItemFailure>)
    ensures |r| == |ids|
    ensures forall i :: 0 <= i < |ids| ==> r[i].itemIdentifier == ids[i]
  {
    if ids == [] then [] else [BatchItemFailure(ids[0])] + ItemFailures(ids[1..])
  }

  /** The ids a batch response reports, in order. */
  function Identifiers(failures: seq<BatchItemFailure>): seq<string>
  {
    if failures == [] then [] else [failures[0].itemIdentifier] + Identifiers(failures[1..])
  }

  class LambdaSqsResponse {
    var failed: seq<string>

    ghost predicate Valid()
      reads this
    {
      NoDuplicates(failed)
    }

    /** A fresh builder has no failures. */
    constructor ()
      ensures Valid() && failed == []
    {
      failed := [];
    }

    /**
     * Appends `id` at the end exactly when it is not already recorded;
     * otherwise the list is left as it was.
     */
    method AddFailure(id: string)
      requires Valid()
      modifies this
      ensures Valid()
      ensures failed == AddUnique(old(failed), id)
    {
      var present := Includes(failed, id);
      if !present {
        failed := failed + [id];
      }
    }

    /** The batch response: one record per recorded id, in the same order; nothing changes. */
    function Json(): (r: BatchResponse)
      reads this
      ensures |r.batchItemFailures| == |failed|
      ensures forall i :: 0 <= i < |failed| ==> r.batchItemFailures[i] == BatchItemFailure(failed[i])
      ensures Identifiers(r.batchItemFailures) == failed
    {
      IdentifiersOfItemFailures(failed);
      BatchResponse(ItemFailures(failed))
    }
  }

  /** Identifiers undoes ItemFailures: the response reports exactly the recorded ids. */
  lemma {:induction false} IdentifiersOfItemFailures(ids: seq<string>)
    ensures Identifiers(ItemFailures(ids)) == ids
  {
    if ids != [] {
      IdentifiersOfItemFailures(ids[1..]);
      assert ItemFailures(ids)[1..] == ItemFailures(ids[1..]);
    }
  }

  /** The list after `addFailure` is called with each of `ids` in turn on a fresh builder. */
  function AddAll(ids: seq<string>): (r: seq<string>)
    ensures NoDuplicates(r)
    ensures forall x :: x in r <==> x in ids
  {
    if ids == [] then [] else AddUnique(AddAll(ids[..|ids| - 1]), ids[|ids| - 1])
  }

  /** The position of the first occurrence of `x` in `s`. */
  function FirstIndex(s: seq<string>, x: string): (r: nat)
    requires x in s
    ensures r < |s| && s[r] == x
    ensures forall j :: 0 <= j < r ==> s[j] != x
  {
    if s[0] == x then 0 else 1 + FirstIndex(s[1..], x)
  }

  lemma FirstIndexInPrefix(s: seq<string>, n: nat, x: string)
    requires n <= |s| && x in s[..n]
    ensures x in s && FirstIndex(s, x) == FirstIndex(s[..n], x)
  {
    var k := FirstIndex(s[..n], x);
    assert s[k] == x;
    var m := FirstIndex(s, x);
    assert m <= k;
    assert s[..n][m] == x;
  }

  /**
   * Any sequence of `addFailure` calls records each distinct id exactly
   * once, in the order of its first insertion.
   */
  lemma {:induction false} AddAllFirstInsertionOrder(ids: seq<string>)
    ensures forall i, j :: 0 <= i < j < |AddAll(ids)| ==>
      AddAll(ids)[i] in ids && AddAll(ids)[j] in ids &&
      FirstIndex(ids, AddAll(ids)[i]) < FirstIndex(ids, AddAll(ids)[j])
  {
    if ids != [] {
      var n := |ids| - 1;
      var prefix := ids[..n];
      var last := ids[n];
      AddAllFirstInsertionOrder(prefix);
      var s := AddAll(prefix);
      var r := AddAll(ids);
      assert r == AddUnique(s, last);
      assert ids == prefix + [last];
      forall x | x in s
        ensures x in ids && FirstIndex(ids, x) == FirstIndex(prefix, x)
      {
        FirstIndexInPrefix(ids, n, x);
      }
      if last !in s {
        assert last !in prefix;
        assert FirstIndex(ids, last) == n;
      }
      forall i, j | 0 <= i < j < |r|
        ensures r[i] in ids && r[j] in ids && FirstIndex(ids, r[i]) < FirstIndex(ids, r[j])
      {
        if j < |s| {
          assert r[i] == s[i] && r[j] == s[j];
        } else {
          assert r[i] == s[i] && r[j] == last && last !in s;
          assert s[i] in prefix;
          assert FirstIndex(prefix, s[i]) < n;
        }
      }
    } else {
      assert AddAll(ids) == [];
    }
  }

  /**
   * Calling `addFailure` with each of `ids` in turn on a fresh builder
   * leaves the list `AddAll(ids)`, which `json` then reports in order.
   */
  method ReplayFailures(ids: seq<string>) returns (r: BatchResponse)
    ensures r == BatchResponse(ItemFailures(AddAll(ids)))
  {
    var builder := new LambdaSqsResponse();
    for k := 0 to |ids|
      invariant builder.Valid() && builder.failed == AddAll(ids[..k])
    {
      assert ids[..k + 1][..k] == ids[..k];
      builder.AddFailure(ids[k]);
    }
    assert ids[..|ids|] == ids;
    r := builder.Json();
  }

  /** `addFailure("X")` twice records `X` once. */
  method DuplicateRecordedOnce() returns (r: BatchResponse)
    ensures r == BatchResponse([BatchItemFailure("X")])
  {
    var builder := new LambdaSqsResponse();
    builder.AddFailure("X");
    builder.AddFailure("X");
    r := builder.Json();
  }

  /** `addFailure("B")` then `addFailure("A")` reports `B` before `A`. */
  method InsertionOrderKept() returns (r: BatchResponse)
    ensures r == BatchResponse([BatchItemFailure("B"), BatchItemFailure("A")])
  {
    var builder := new LambdaSqsResponse();
    builder.AddFailure("B");
    builder.AddFailure("A");
    r := builder.Json();
  }

  /** A builder with no failures reports an empty list; asking twice gives equal results. */
  method EmptyBatch() returns (first: BatchResponse, second: BatchResponse)
    ensures first == BatchResponse([]) && second == first
  {
    var builder := new LambdaSqsResponse();
    first := builder.Json();
    second := builder.Json();
  }

  /** A single failure `123` is reported as one record. */
  method SingleFailure() returns (r: BatchResponse)
    ensures r == BatchResponse([BatchItemFailure("123")])
  {
    var builder := new LambdaSqsResponse();
    builder.AddFailure("123");
    r := builder.Json();
  }
}
