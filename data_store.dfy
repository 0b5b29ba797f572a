/**
 * The data store: the list of data records an analysis writes out after
 * each converged step. Records are numbered from 1 in the order they are
 * added.
 */
module FEDataStore {

  /** The ids 1, 2, ..., |ids| in order. */
  predicate Sequential(ids: seq<int>)
  {
    forall i :: 0 <= i < |ids| ==> ids[i] == i + 1
  }

  /** The ids of a store after one more record is added: the new record gets the old count plus one. */
  function NextIds(ids: seq<int>): (r: seq<int>)
    ensures |r| == |ids| + 1 && r[..|ids|] == ids
    ensures Sequential(ids) ==> Sequential(r)
  {
    ids + [|ids| + 1]
  }

  /** The ids after k records are added to an empty store. */
  function IdsAfterAdds(k: nat): seq<int>
  {
    if k == 0 then [] else NextIds(IdsAfterAdds(k - 1))
  }

  /** k additions to an empty store give the ids 1..k in insertion order, all distinct. */
  lemma {:induction false} AddsNumberFromOne(k: nat)
    ensures |IdsAfterAdds(k)| == k
    ensures Sequential(IdsAfterAdds(k))
    ensures forall i, j :: 0 <= i < j < k ==> IdsAfterAdds(k)[i] != IdsAfterAdds(k)[j]
  {
    if k > 0 {
      AddsNumberFromOne(k - 1);
    }
  }

  /** The sequence of record Write calls, in the order they happen. */
  class WriteLog {
    var calls: seq<DataRecord>

    constructor ()
      ensures calls == []
    {
      calls := [];
    }
  }

  /** A data record; only its id matters here. */
  class DataRecord {
    var nid: int

    constructor ()
      ensures nid == 0
    {
      nid := 0;
    }

    /** Writes the record's data; the call is entered in the log. */
    method Write(log: WriteLog)
      modifies log
      ensures log.calls == old(log.calls) + [this]
    {
      log.calls := log.calls + [this];
    }
  }

  class DataStore {
    var data: seq<DataRecord>

    /** The ids of the records, in store order. */
    function Ids(): (r: seq<int>)
      reads this, data
      ensures |r| == |data|
      ensures forall i :: 0 <= i < |data| ==> r[i] == data[i].nid
    {
      seq(|data|, i reads this, data requires 0 <= i < |data| => data[i].nid)
    }

    constructor ()
      ensures data == []
    {
      data := [];
    }

    /** Deletes every record and empties the store. */
    method Clear()
      modifies this
      ensures data == []
    {
      data := [];
    }

    /** Calls each record's Write exactly once, in store order. */
    method Write(log: WriteLog)
      modifies log
      ensures log.calls == old(log.calls) + data
    {
      var i := 0;
      while i < |data|
        invariant 0 <= i <= |data|
        invariant log.calls == old(log.calls) + data[..i]
      {
        data[i].Write(log);
        assert data[..i + 1] == data[..i] + [data[i]];
        i := i + 1;
      }
      assert data[..i] == data;
    }

    /**
     * Gives prec the id count + 1 and appends it; the records already in
     * the store, and their ids, are untouched.
     */
    method AddRecord(prec: DataRecord)
      requires prec !in data
      modifies this, prec
      ensures data == old(data) + [prec]
      ensures Ids() == NextIds(old(Ids()))
    {
      prec.nid := |data| + 1;
      data := data + [prec];
    }
  }
}
