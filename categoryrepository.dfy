/**
 * The remote-first category repository over the Room cache.  The cache table is a map from
 * primary key to row; `saveCategories` is a REPLACE insert of the whole list, done as one
 * transaction, so a failing save writes nothing.
 */
module CategoryRepository {
  import opened Wrappers
  import opened CategoryDomain
  import opened LocalCategoryMappers
  import NetworkCategoryMappers

  /** `CategoryRemoteDataSourceImpl.getCategories`: the API's list, every entry mapped; any failure escapes. */
  function RemoteCategories(api: Result<seq<NetworkCategoryMappers.CategoryDto>, string>): (r: Result<seq<Category>, string>)
    ensures api.Failure? ==> r == Failure(api.error)
    ensures api.Success? ==> r == MapAll(api.value, NetworkCategoryMappers.ToDomain)
  {
    match api
    case Failure(m) => Failure(m)
    case Success(dtos) => MapAll(dtos, NetworkCategoryMappers.ToDomain)
  }

  /** Every row is stored under its own primary key. */
  ghost predicate KeyedById(rows: map<string, CategoryEntity>) {
    forall k :: k in rows ==> rows[k].id == k
  }

  /** The table after REPLACE-inserting `cs` in order: the last category with an id wins. */
  function Upserted(rows: map<string, CategoryEntity>, cs: seq<Category>, toJson: NotificationRules -> string):
    map<string, CategoryEntity>
  {
    if cs == [] then rows
    else Upserted(rows, cs[..|cs| - 1], toJson)[cs[|cs| - 1].id := ToEntity(cs[|cs| - 1], toJson)]
  }

  /** The ids of `cs`. */
  function Ids(cs: seq<Category>): (r: set<string>)
    ensures forall i :: 0 <= i < |cs| ==> cs[i].id in r
    ensures forall k :: k in r ==> exists i :: 0 <= i < |cs| && cs[i].id == k
  {
    if cs == [] then {}
    else
      var init := cs[..|cs| - 1];
      assert forall i :: 0 <= i < |init| ==> init[i] == cs[i];
      Ids(init) + {cs[|cs| - 1].id}
  }

  /** Saving adds the saved ids and keeps every row whose id is not among them. */
  lemma {:induction false} UpsertKeepsOthers(rows: map<string, CategoryEntity>, cs: seq<Category>,
                                             toJson: NotificationRules -> string)
    ensures Upserted(rows, cs, toJson).Keys == rows.Keys + Ids(cs)
    ensures forall k :: k in rows && k !in Ids(cs) ==> Upserted(rows, cs, toJson)[k] == rows[k]
    ensures KeyedById(rows) ==> KeyedById(Upserted(rows, cs, toJson))
  {
    if cs != [] {
      UpsertKeepsOthers(rows, cs[..|cs| - 1], toJson);
    }
  }

  /** After saving, each id carries the row of the last category saved under it. */
  lemma {:induction false} UpsertLastWins(rows: map<string, CategoryEntity>, cs: seq<Category>,
                                          toJson: NotificationRules -> string, j: int)
    requires 0 <= j < |cs|
    requires forall i :: j < i < |cs| ==> cs[i].id != cs[j].id
    ensures cs[j].id in Upserted(rows, cs, toJson)
    ensures Upserted(rows, cs, toJson)[cs[j].id] == ToEntity(cs[j], toJson)
  {
    if j < |cs| - 1 {
      var init := cs[..|cs| - 1];
      UpsertLastWins(rows, init, toJson, j);
    }
  }

  /**
   * A saved list with distinct ids can be read back from the cache: each category's row maps
   * to the category itself, provided Gson reads back its own JSON.
   */
  lemma SavedCategoriesReadBack(rows: map<string, CategoryEntity>, cs: seq<Category>,
                                toJson: NotificationRules -> string,
                                fromJson: string -> Result<NotificationRules, string>)
    requires forall i, j :: 0 <= i < j < |cs| ==> cs[i].id != cs[j].id
    requires forall i :: 0 <= i < |cs| ==> fromJson(toJson(cs[i].notificationRules)) == Success(cs[i].notificationRules)
    ensures forall i :: 0 <= i < |cs| ==>
      cs[i].id in Upserted(rows, cs, toJson) && ToDomain(Upserted(rows, cs, toJson)[cs[i].id], fromJson) == Success(cs[i])
  {
    forall i | 0 <= i < |cs|
      ensures cs[i].id in Upserted(rows, cs, toJson) && ToDomain(Upserted(rows, cs, toJson)[cs[i].id], fromJson) == Success(cs[i])
    {
      UpsertLastWins(rows, cs, toJson, i);
      DomainRoundTrip(cs[i], toJson, fromJson);
    }
  }

  /** The local mapper applied to one row. */
  function Reader(fromJson: string -> Result<NotificationRules, string>): CategoryEntity -> Result<Category, string> {
    (e: CategoryEntity) => ToDomain(e, fromJson)
  }

  /** `order` visits every row of the table exactly once. */
  ghost predicate IsScan<E>(rows: map<string, E>, order: seq<string>) {
    && |order| == |rows|
    && (forall i :: 0 <= i < |order| ==> order[i] in rows)
    && (forall k :: k in rows ==> k in order)
  }

  /** `vals` are the rows of `order`, read one by one. */
  ghost predicate ReadInOrder<E, C>(rows: map<string, E>, order: seq<string>, vals: seq<C>, read: E -> Result<C, string>) {
    && |vals| == |order|
    && (forall i :: 0 <= i < |order| ==> order[i] in rows && read(rows[order[i]]) == Success(vals[i]))
  }

  /**
   * `r` is a reading of `rows` through `read`: it succeeds exactly when every row reads,
   * then lists the rows' values in some scan order, and otherwise carries the error of
   * some row.
   */
  ghost predicate ListsAll<E, C>(rows: map<string, E>, r: Result<seq<C>, string>, read: E -> Result<C, string>) {
    && (r.Success? <==> forall k :: k in rows ==> read(rows[k]).Success?)
    && (r.Success? ==> exists order :: IsScan(rows, order) && ReadInOrder(rows, order, r.value, read))
    && (r.Failure? ==> exists k :: k in rows && read(rows[k]) == Failure(r.error))
  }

  /** The table read back as categories. */
  ghost predicate ListsRows(rows: map<string, CategoryEntity>, r: Result<seq<Category>, string>,
                            fromJson: string -> Result<NotificationRules, string>)
  {
    ListsAll(rows, r, Reader(fromJson))
  }

  /** A row that does not read makes the failure its error. */
  lemma FailedRead<E, C>(rows: map<string, E>, read: E -> Result<C, string>, k: string)
    requires k in rows && read(rows[k]).Failure?
    ensures ListsAll(rows, Failure(read(rows[k]).error), read)
  {
  }

  /** Values read from every row along a scan list the table. */
  lemma CompleteRead<E, C>(rows: map<string, E>, read: E -> Result<C, string>, acc: seq<C>, order: seq<string>)
    requires IsScan(rows, order) && ReadInOrder(rows, order, acc, read)
    ensures ListsAll(rows, Success(acc), read)
  {
    forall k | k in rows
      ensures read(rows[k]).Success?
    {
      var i :| 0 <= i < |order| && order[i] == k;
    }
  }

  /**
   * `rows.map(read)` over a table scanned in some order; the first row that does not
   * read throws.  The scan order is not fixed here.
   */
  method ReadRows<E, C>(rows: map<string, E>, read: E -> Result<C, string>) returns (r: Result<seq<C>, string>)
    ensures ListsAll(rows, r, read)
  {
    var remaining := rows.Keys;
    var acc: seq<C> := [];
    ghost var order: seq<string> := [];
    while remaining != {}
      invariant remaining <= rows.Keys
      invariant |acc| == |order| && |order| + |remaining| == |rows|
      invariant forall i :: 0 <= i < |order| ==> order[i] in rows
      invariant forall i :: 0 <= i < |order| ==> read(rows[order[i]]) == Success(acc[i])
      invariant forall k :: k in rows && k !in remaining ==> k in order
      decreases |remaining|
    {
      var k :| k in remaining;
      var one := read(rows[k]);
      if one.Failure? {
        FailedRead(rows, read, k);
        return Failure(one.error);
      }
      acc := acc + [one.value];
      order := order + [k];
      remaining := remaining - {k};
    }
    CompleteRead(rows, read, acc, order);
    r := Success(acc);
  }

  class CategoryRepositoryImpl {
    /** The "categories" table. */
    var rows: map<string, CategoryEntity>

    constructor(rows: map<string, CategoryEntity>)
      ensures this.rows == rows
    {
      this.rows := rows;
    }

    /** `saveCategories`: every category is mapped to its row and REPLACE-inserted, in order. */
    method SaveCategories(categories: seq<Category>, toJson: NotificationRules -> string)
      modifies this
      ensures rows == Upserted(old(rows), categories, toJson)
    {
      var i := 0;
      while i < |categories|
        invariant 0 <= i <= |categories|
        invariant rows == Upserted(old(rows), categories[..i], toJson)
      {
        assert categories[..i + 1][..i] == categories[..i];
        rows := rows[categories[i].id := ToEntity(categories[i], toJson)];
        i := i + 1;
      }
      assert categories[..i] == categories;
    }

    /** The local `getCategories().first()`: every row of the table mapped to the domain model. */
    method LocalCategories(fromJson: string -> Result<NotificationRules, string>) returns (r: Result<seq<Category>, string>)
      ensures ListsRows(rows, r, fromJson)
    {
      r := ReadRows(rows, Reader(fromJson));
    }

    /**
     * `getCategories`: the remote list is saved and then emitted; if fetching or saving
     * it fails, the table is left as it was and its current contents are emitted instead.
     * Exactly one list is emitted, unless reading the table fails too, and then that
     * error escapes the flow.
     */
    method GetCategories(remote: Result<seq<Category>, string>, saveError: Option<string>,
                         toJson: NotificationRules -> string, fromJson: string -> Result<NotificationRules, string>)
      returns (emitted: Result<seq<Category>, string>)
      modifies this
      ensures remote.Success? && saveError.None? ==>
        rows == Upserted(old(rows), remote.value, toJson) && emitted == Success(remote.value)
      ensures remote.Failure? || saveError.Some? ==> rows == old(rows) && ListsRows(rows, emitted, fromJson)
    {
      if remote.Success? && saveError.None? {
        SaveCategories(remote.value, toJson);
        emitted := Success(remote.value);
      } else {
        emitted := LocalCategories(fromJson);
      }
    }
  }
}
