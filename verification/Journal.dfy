/** The durable order-event table and the service object over it.
    Every operation is one committed SQL statement, so each is atomic. */
module Journal {
  import opened Wrappers
  import opened OrderedDict
  import opened Sequences

  datatype Row<P> = Row(tradeId: string, status: string, payload: P, published: bool)

  type Table<P> = Dict<string, Row<P>>

  /** INSERT under the primary key: `None` is the integrity error. */
  function Insert<P>(t: Table<P>, id: string, tradeId: string, status: string, payload: P): (r: Option<Table<P>>)
    ensures r.Some? <==> !Has(t, id)
  {
    if Has(t, id) then None else Some(Put(t, id, Row(tradeId, status, payload, false)))
  }

  /** UPDATE ... WHERE id = ?: touches nothing when the id is absent. */
  function Update<P>(t: Table<P>, id: string, status: string, payload: P): Table<P> {
    if Has(t, id) then Put(t, id, t.entries[id].(status := status, payload := payload)) else t
  }

  function MarkPublished<P>(t: Table<P>, id: string): Table<P> {
    if Has(t, id) then Put(t, id, t.entries[id].(published := true)) else t
  }

  predicate Unpublished<P>(t: Table<P>, id: string) {
    Has(t, id) && !t.entries[id].published
  }

  /** Ids of the rows with `published = 0`, in insertion order. */
  function PendingIds<P(!new)>(t: Table<P>): (ids: seq<string>)
    ensures forall id :: id in ids <==> Unpublished(t, id)
    ensures forall i :: 0 <= i < |ids| ==> Unpublished(t, ids[i])
  {
    Filter(t.order, id => Unpublished(t, id))
  }

  /** The pending ids are those of the unpublished rows, each once, in insertion order. */
  lemma PendingInOrder<P(!new)>(t: Table<P>)
    ensures forall id :: id in PendingIds(t) <==> Unpublished(t, id)
    ensures Distinct(PendingIds(t))
    ensures forall i, j :: 0 <= i < j < |PendingIds(t)| ==> Before(t.order, PendingIds(t)[i], PendingIds(t)[j])
  {
    FilterKeepsOrder(t.order, id => Unpublished(t, id));
  }

  class OrderEventJournal<P(!new)> {
    var table: Table<P>

    constructor ()
      ensures table == Empty()
    {
      table := Empty();
    }

    method Record(id: string, tradeId: string, status: string, payload: P) returns (ok: bool)
      modifies this
      ensures ok <==> !Has(old(table), id)
      ensures ok ==> Insert(old(table), id, tradeId, status, payload) == Some(table)
      ensures !ok ==> table == old(table)
    {
      var inserted := Insert(table, id, tradeId, status, payload);
      ok := inserted.Some?;
      if ok {
        table := inserted.value;
      }
    }

    /** Changes status and payload of one row: not its place, its trade, nor whether it was
        published; nothing at all when there is no such row. */
    method UpdateRow(id: string, status: string, payload: P)
      modifies this
      ensures table.order == old(table).order && (Has(table, id) <==> Has(old(table), id))
      ensures forall k :: k != id ==> Get(table, k) == Get(old(table), k)
      ensures Has(table, id) ==>
                && table.entries[id].status == status && table.entries[id].payload == payload
                && table.entries[id].published == old(table).entries[id].published
                && table.entries[id].tradeId == old(table).entries[id].tradeId
      ensures table == Update(old(table), id, status, payload)
    {
      if Has(table, id) {
        var row := table.entries[id];
        table := Put(table, id, Row(row.tradeId, status, payload, row.published));
      }
    }

    /** Publishes one row and changes nothing else; doing it again changes nothing. */
    method Mark(id: string)
      modifies this
      ensures table.order == old(table).order && (Has(table, id) <==> Has(old(table), id))
      ensures forall k :: k != id ==> Get(table, k) == Get(old(table), k)
      ensures Has(table, id) ==>
                && table.entries[id].published && table.entries[id].status == old(table).entries[id].status
                && table.entries[id].payload == old(table).entries[id].payload
                && table.entries[id].tradeId == old(table).entries[id].tradeId
      ensures !Unpublished(table, id) && (!Unpublished(old(table), id) ==> table == old(table))
      ensures table == MarkPublished(old(table), id)
    {
      if Has(table, id) {
        var row := table.entries[id];
        table := Put(table, id, Row(row.tradeId, row.status, row.payload, true));
      }
    }
  }
}
