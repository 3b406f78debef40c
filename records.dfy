/** The two list updates every collection of the portal goes through, keyed by
    a record's `id`: `xs.map(x => x.id === id ? f(x) : x)` and
    `xs.filter(x => x.id !== id)`. */
module Records {
  import opened Seqs

  function UpdateById<T>(s: seq<T>, key: T -> string, id: string, f: T -> T): seq<T>
  {
    MapWhere(s, x => key(x) == id, f)
  }

  function DeleteById<T>(s: seq<T>, key: T -> string, id: string): seq<T>
  {
    Filter(s, x => key(x) != id)
  }

  /** The update keeps the length, rewrites exactly the records carrying `id` and
      leaves every other record as it was. */
  lemma UpdateByIdSpec<T>(s: seq<T>, key: T -> string, id: string, f: T -> T)
    ensures |UpdateById(s, key, id, f)| == |s|
    ensures forall i :: 0 <= i < |s| && key(s[i]) == id ==> UpdateById(s, key, id, f)[i] == f(s[i])
    ensures forall i :: 0 <= i < |s| && key(s[i]) != id ==> UpdateById(s, key, id, f)[i] == s[i]
  {
  }

  /** Updating an id no record carries changes nothing. */
  lemma UpdateUnknownId<T>(s: seq<T>, key: T -> string, id: string, f: T -> T)
    requires forall i :: 0 <= i < |s| ==> key(s[i]) != id
    ensures UpdateById(s, key, id, f) == s
  {
  }

  /** An update that is idempotent and keeps the id is idempotent as a list update. */
  lemma UpdateByIdIdempotent<T>(s: seq<T>, key: T -> string, id: string, f: T -> T)
    requires forall x :: key(x) == id ==> key(f(x)) == id && f(f(x)) == f(x)
    ensures UpdateById(UpdateById(s, key, id, f), key, id, f) == UpdateById(s, key, id, f)
  {
    MapWhereIdempotent(s, x => key(x) == id, f);
  }

  /** Deleting removes exactly the records carrying `id`: what remains is the
      order-preserving subsequence of the others, shorter by the number removed. */
  lemma DeleteByIdSpec<T>(s: seq<T>, key: T -> string, id: string)
    ensures forall x :: x in DeleteById(s, key, id) <==> x in s && key(x) != id
    ensures IsSubsequence(DeleteById(s, key, id), s)
    ensures |DeleteById(s, key, id)| == |s| - Count(s, x => key(x) == id)
  {
    forall x ensures x in DeleteById(s, key, id) <==> x in s && key(x) != id {
      FilterMembership(s, x => key(x) != id, x);
    }
    FilterIsSubsequence(s, x => key(x) != id);
    FilterComplement(s, x => key(x) == id, x => key(x) != id);
    FilterCount(s, x => key(x) == id);
  }

  /** Deleting twice is deleting once. */
  lemma DeleteByIdIdempotent<T>(s: seq<T>, key: T -> string, id: string)
    ensures DeleteById(DeleteById(s, key, id), key, id) == DeleteById(s, key, id)
  {
    var r := DeleteById(s, key, id);
    FilterAll(r, x => key(x) != id);
  }
}
