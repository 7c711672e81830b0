/**
 * The items service: straight-line delegation to a data-access object, plus an id override on
 * lookup and a re-fetch after a partial update. The data-access object is abstract: each of its
 * operations is the outcome it reports for a request. Every reply records the data-access calls
 * made, in order, so that sequencing can be stated.
 */
module ItemsService {
  import opened Wrappers
  import opened ItemErrors
  import opened ItemDto
  import opened Queries

  /** The data-access operations the service delegates to. */
  datatype ItemDao = ItemDao(
    save: Item -> Option<Error>,
    get: string -> Result<Item, Error>,
    search: EsQuery -> Result<seq<Item>, Error>,
    delete: string -> Option<Error>,
    put: Item -> Option<Error>,
    patch: (PartialUpdateItem, string) -> Option<Error>)

  /** One call on the data-access object. */
  datatype DaoCall =
    | SaveCall(item: Item)
    | GetCall(id: string)
    | SearchCall(query: EsQuery)
    | DeleteCall(id: string)
    | PutCall(item: Item)
    | PatchCall(patch: PartialUpdateItem, id: string)

  /** A service result together with the data-access calls that produced it. */
  datatype Reply<T> = Reply(result: Result<T, Error>, calls: seq<DaoCall>)

  /** The error a data-access call reports, if any. */
  function CallError(dao: ItemDao, c: DaoCall): Option<Error> {
    match c
    case SaveCall(x) => dao.save(x)
    case GetCall(id) => if dao.get(id).Failure? then Some(dao.get(id).error) else None
    case SearchCall(q) => if dao.search(q).Failure? then Some(dao.search(q).error) else None
    case DeleteCall(id) => dao.delete(id)
    case PutCall(x) => dao.put(x)
    case PatchCall(p, id) => dao.patch(p, id)
  }

  /** Every error in the reply is one that a call the service made reported. */
  predicate ErrorFromDao<T>(dao: ItemDao, r: Reply<T>) {
    r.result.Failure? ==> exists i :: 0 <= i < |r.calls| && CallError(dao, r.calls[i]) == Some(r.result.error)
  }

  datatype ItemsService = ItemsService(itemDao: ItemDao) {

    /** Save the item; on success answer the submitted item itself, with no re-fetch. */
    function Create(item: Item): (r: Reply<Item>)
      ensures r.calls == [SaveCall(item)]
      ensures r.result.Failure? <==> itemDao.save(item).Some?
      ensures r.result.Failure? ==> r.result.error == itemDao.save(item).value
      ensures r.result.Success? ==> r.result.value == item
    {
      var err := itemDao.save(item);
      if err.Some? then Reply(Failure(err.value), [SaveCall(item)]) else Reply(Success(item), [SaveCall(item)])
    }

    /** Fetch by id; on success the item's id is overwritten with the requested id. */
    function Get(id: string): (r: Reply<Item>)
      ensures r.calls == [GetCall(id)]
      ensures r.result.Failure? <==> itemDao.get(id).Failure?
      ensures r.result.Failure? ==> r.result.error == itemDao.get(id).error
      ensures r.result.Success? ==> r.result.value.id == id
      ensures r.result.Success? ==> r.result.value == itemDao.get(id).value.(id := id)
    {
      var result := itemDao.get(id);
      if result.Failure? then Reply(Failure(result.error), [GetCall(id)])
      else Reply(Success(result.value.(id := id)), [GetCall(id)])
    }

    /** Exactly what the data-access search reports. */
    function Search(query: EsQuery): (r: Reply<seq<Item>>)
      ensures r.calls == [SearchCall(query)] && r.result == itemDao.search(query)
    {
      Reply(itemDao.search(query), [SearchCall(query)])
    }

    /** Exactly what the data-access delete reports. */
    function Delete(id: string): (r: Reply<()>)
      ensures r.calls == [DeleteCall(id)]
      ensures r.result.Failure? <==> itemDao.delete(id).Some?
      ensures r.result.Failure? ==> r.result.error == itemDao.delete(id).value
    {
      var err := itemDao.delete(id);
      Reply(if err.Some? then Failure(err.value) else Success(()), [DeleteCall(id)])
    }

    /** Replace the item; on success answer the submitted item itself. */
    function Put(item: Item): (r: Reply<Item>)
      ensures r.calls == [PutCall(item)]
      ensures r.result.Failure? <==> itemDao.put(item).Some?
      ensures r.result.Failure? ==> r.result.error == itemDao.put(item).value
      ensures r.result.Success? ==> r.result.value == item
    {
      var err := itemDao.put(item);
      if err.Some? then Reply(Failure(err.value), [PutCall(item)]) else Reply(Success(item), [PutCall(item)])
    }

    /**
     * Apply the patch, then answer the item as a fresh lookup returns it. A failed patch answers
     * its error and makes no lookup.
     */
    function Patch(patch: PartialUpdateItem, id: string): (r: Reply<Item>)
      ensures itemDao.patch(patch, id).Some? ==>
        r == Reply(Failure(itemDao.patch(patch, id).value), [PatchCall(patch, id)])
      ensures itemDao.patch(patch, id).None? ==>
        r.calls == [PatchCall(patch, id), GetCall(id)] && r.result == itemDao.get(id)
    {
      var err := itemDao.patch(patch, id);
      if err.Some? then Reply(Failure(err.value), [PatchCall(patch, id)])
      else Reply(itemDao.get(id), [PatchCall(patch, id), GetCall(id)])
    }
  }

  /** The service holds the data-access object it was built with. */
  function NewItemsService(itemDao: ItemDao): (s: ItemsService)
    ensures s.itemDao == itemDao
  {
    ItemsService(itemDao)
  }

  /** The service never makes up an error: each error it answers was reported by one of its calls. */
  lemma ErrorsComeFromDao(s: ItemsService, item: Item, id: string, query: EsQuery, patch: PartialUpdateItem)
    ensures ErrorFromDao(s.itemDao, s.Create(item))
    ensures ErrorFromDao(s.itemDao, s.Get(id))
    ensures ErrorFromDao(s.itemDao, s.Search(query))
    ensures ErrorFromDao(s.itemDao, s.Delete(id))
    ensures ErrorFromDao(s.itemDao, s.Put(item))
    ensures ErrorFromDao(s.itemDao, s.Patch(patch, id))
  {
    assert CallError(s.itemDao, s.Create(item).calls[0]) == s.itemDao.save(item);
    assert s.Get(id).calls[0] == GetCall(id);
    assert s.Search(query).calls[0] == SearchCall(query);
    assert CallError(s.itemDao, s.Delete(id).calls[0]) == s.itemDao.delete(id);
    assert CallError(s.itemDao, s.Put(item).calls[0]) == s.itemDao.put(item);
    if s.itemDao.patch(patch, id).None? {
      assert s.Patch(patch, id).calls[1] == GetCall(id);
    } else {
      assert s.Patch(patch, id).calls[0] == PatchCall(patch, id);
    }
  }

  /** A lookup is made only after a successful patch, and then it is the last call. */
  lemma PatchLooksUpOnlyAfterSuccess(s: ItemsService, patch: PartialUpdateItem, id: string)
    ensures GetCall(id) in s.Patch(patch, id).calls <==> s.itemDao.patch(patch, id).None?
    ensures s.Patch(patch, id).calls[0] == PatchCall(patch, id)
  {
  }

  /** The id a lookup answers is the requested one, whatever id the stored item carried. */
  lemma GetOverridesId(s: ItemsService, id: string, stored: Item)
    requires s.itemDao.get(id) == Success(stored)
    ensures s.Get(id).result == Success(stored.(id := id))
  {
  }
}
