/**
 How clients prepare the pipeline: each one compares its part sizes and counts with the published ones, updates
 them, and puts the data parts that it finds missing.
 */
module Setup {
  import opened Common
  import opened Text
  import opened PipelineKeys

  // ----- The store

  datatype StoreKey =
    | EntryPartSize | NumEntryParts | DataPartSize | NumDataParts | ClientAddress(client: nat)
    | EntryPart(i: int)
    | DataPart(category: string, i: int)

  datatype Value = Number(n: int) | Blob(size: int) | Address(ip: string)

  datatype Put = Put(key: StoreKey, value: Value)

  type Store = map<StoreKey, Value>

  const CONFIG_PATH := "/config"

  /** The key in the store. */
  function Name(k: StoreKey): string {
    match k
    case EntryPartSize => CONFIG_PATH + "/entry_part_size"
    case NumEntryParts => CONFIG_PATH + "/num_entry_parts"
    case DataPartSize => CONFIG_PATH + "/data_part_size"
    case NumDataParts => CONFIG_PATH + "/num_data_parts"
    case ClientAddress(client) => CONFIG_PATH + "/client_" + Decimal(client)
    case EntryPart(i) => ENTRY_DATA_PREFIX + "_" + ToString(i)
    case DataPart(category, i) => DATA_PREFIX + category + "/" + ToString(i)
  }

  predicate IsConfig(k: StoreKey) {
    !k.EntryPart? && !k.DataPart?
  }

  // ----- One setup

  datatype Request = Request(client: nat, entrySize: int, entryParts: int, dataSize: int, dataParts: int, ip: string)

  function Apply(store: Store, puts: seq<Put>): Store {
    if puts == [] then store
    else
      var last := puts[|puts| - 1];
      Apply(store, puts[..|puts| - 1])[last.key := last.value]
  }

  function GetInt(store: Store, k: StoreKey): int {
    if k in store && store[k].Number? then store[k].n else -1
  }

  predicate Configured(store: Store) {
    exists k | k in store :: IsConfig(k)
  }

  /** The first part that a client has to put, given what is published in a configured store. */
  function FirstPart(configured: bool, publishedSize: int, publishedParts: int, size: int, parts: int): int {
    if !configured || publishedSize != size then 0
    else if publishedParts < parts then publishedParts
    else parts
  }

  /** The config updates for one kind of data. */
  function PublishPuts(configured: bool, publishedSize: int, publishedParts: int, size: int, parts: int,
                       sizeKey: StoreKey, partsKey: StoreKey): seq<Put>
  {
    if !configured then [Put(sizeKey, Number(size)), Put(partsKey, Number(parts))]
    else if publishedSize != size then [Put(sizeKey, Number(size))]
    else if publishedParts < parts then [Put(partsKey, Number(parts))]
    else []
  }

  function ConfigPuts(store: Store, r: Request): seq<Put> {
    var c := Configured(store);
    PublishPuts(c, GetInt(store, EntryPartSize), GetInt(store, NumEntryParts), r.entrySize, r.entryParts,
                EntryPartSize, NumEntryParts)
    + PublishPuts(c, GetInt(store, DataPartSize), GetInt(store, NumDataParts), r.dataSize, r.dataParts,
                  DataPartSize, NumDataParts)
    + [Put(ClientAddress(r.client), Address(r.ip))]
  }

  function EntryPuts(from: int, to: int, size: int): seq<Put>
    decreases (to - from)
  {
    if from >= to then [] else EntryPuts(from, to - 1, size) + [Put(EntryPart(to - 1), Blob(size))]
  }

  function DataPuts(category: nat, from: int, to: int, size: int): seq<Put>
    decreases (to - from)
  {
    if from >= to then [] else DataPuts(category, from, to - 1, size) + [Put(DataPart(Decimal(category), to - 1), Blob(size))]
  }

  function CategoriesPuts(categories: nat, from: int, to: int, size: int): seq<Put> {
    if categories == 0 then []
    else CategoriesPuts(categories - 1, from, to, size) + DataPuts(categories - 1, from, to, size)
  }

  /** Everything that one setup puts into the store it finds, in order. */
  function SetupPuts(store: Store, r: Request, categories: nat): seq<Put> {
    var c := Configured(store);
    ConfigPuts(store, r)
    + EntryPuts(FirstPart(c, GetInt(store, EntryPartSize), GetInt(store, NumEntryParts), r.entrySize, r.entryParts),
                r.entryParts, r.entrySize)
    + CategoriesPuts(categories,
                     FirstPart(c, GetInt(store, DataPartSize), GetInt(store, NumDataParts), r.dataSize, r.dataParts),
                     r.dataParts, r.dataSize)
  }

  // ----- Setup as it is carried out

  lemma ApplyOne(store: Store, puts: seq<Put>, x: Put)
    ensures Apply(store, puts + [x]) == Apply(store, puts)[x.key := x.value]
  {
    assert (puts + [x])[..|puts|] == puts;
  }

  lemma {:induction false} ApplyAppend(store: Store, xs: seq<Put>, ys: seq<Put>)
    ensures Apply(store, xs + ys) == Apply(Apply(store, xs), ys)
  {
    if ys == [] {
      assert xs + ys == xs;
    } else {
      var n := |ys| - 1;
      ApplyAppend(store, xs, ys[..n]);
      assert (xs + ys)[..|xs + ys| - 1] == xs + ys[..n];
    }
  }

  class CascadeStore {
    var objects: Store

    constructor ()
      ensures objects == map[]
    {
      objects := map[];
    }

    method PutObject(key: StoreKey, value: Value)
      modifies this
      ensures objects == old(objects)[key := value]
    {
      objects := objects[key := value];
    }
  }

  /** `setup`: decides what to publish and what to put, and puts it. */
  method RunSetup(store: CascadeStore, r: Request, categories: nat)
    modifies store
    ensures store.objects == Apply(old(store.objects), SetupPuts(old(store.objects), r, categories))
  {
    hide Apply, EntryPuts, DataPuts, CategoriesPuts, Configured, GetInt;
    ghost var before := store.objects;
    ghost var done: seq<Put> := [];
    ApplyNothing(before);
    var partsToPut, entryPartsToPut := r.dataParts, r.entryParts;
    if !Configured(store.objects) {
      store.PutObject(EntryPartSize, Number(r.entrySize));
      store.PutObject(NumEntryParts, Number(r.entryParts));
      store.PutObject(DataPartSize, Number(r.dataSize));
      store.PutObject(NumDataParts, Number(r.dataParts));
      done := [Put(EntryPartSize, Number(r.entrySize)), Put(NumEntryParts, Number(r.entryParts)),
               Put(DataPartSize, Number(r.dataSize)), Put(NumDataParts, Number(r.dataParts))];
      ApplyFour(before, done[0], done[1], done[2], done[3]);
    } else {
      if GetInt(store.objects, EntryPartSize) == r.entrySize {
        var published := GetInt(store.objects, NumEntryParts);
        if published < r.entryParts {
          ApplyOne(before, done, Put(NumEntryParts, Number(r.entryParts)));
          done := done + [Put(NumEntryParts, Number(r.entryParts))];
          store.PutObject(NumEntryParts, Number(r.entryParts));
          entryPartsToPut := entryPartsToPut - published;
        } else {
          entryPartsToPut := 0;
        }
      } else {
        ApplyOne(before, done, Put(EntryPartSize, Number(r.entrySize)));
        done := done + [Put(EntryPartSize, Number(r.entrySize))];
        store.PutObject(EntryPartSize, Number(r.entrySize));
      }
      OtherConfig(before, store.objects);
      if GetInt(store.objects, DataPartSize) == r.dataSize {
        var published := GetInt(store.objects, NumDataParts);
        if published < r.dataParts {
          ApplyOne(before, done, Put(NumDataParts, Number(r.dataParts)));
          done := done + [Put(NumDataParts, Number(r.dataParts))];
          store.PutObject(NumDataParts, Number(r.dataParts));
          partsToPut := partsToPut - published;
        } else {
          partsToPut := 0;
        }
      } else {
        ApplyOne(before, done, Put(DataPartSize, Number(r.dataSize)));
        done := done + [Put(DataPartSize, Number(r.dataSize))];
        store.PutObject(DataPartSize, Number(r.dataSize));
      }
    }
    ApplyOne(before, done, Put(ClientAddress(r.client), Address(r.ip)));
    done := done + [Put(ClientAddress(r.client), Address(r.ip))];
    store.PutObject(ClientAddress(r.client), Address(r.ip));
    assert done == ConfigPuts(before, r);

    ghost var configured := Configured(before);
    assert r.entryParts - entryPartsToPut == FirstPart(configured, GetInt(before, EntryPartSize),
                                                       GetInt(before, NumEntryParts), r.entrySize, r.entryParts);
    assert r.dataParts - partsToPut == FirstPart(configured, GetInt(before, DataPartSize),
                                                 GetInt(before, NumDataParts), r.dataSize, r.dataParts);

    assert store.objects == Apply(before, done);
    PutEntryParts(store, r.entryParts - entryPartsToPut, r.entryParts, r.entrySize);
    PutDataParts(store, categories, r.dataParts - partsToPut, r.dataParts, r.dataSize);

    ghost var entry := EntryPuts(r.entryParts - entryPartsToPut, r.entryParts, r.entrySize);
    ghost var data := CategoriesPuts(categories, r.dataParts - partsToPut, r.dataParts, r.dataSize);
    assert SetupPuts(before, r, categories) == done + entry + data;
    ApplyAppend(before, done, entry);
    ApplyAppend(before, done + entry, data);
  }

  lemma ApplyNothing(store: Store)
    ensures Apply(store, []) == store
  {
  }

  lemma ApplyFour(store: Store, a: Put, b: Put, c: Put, d: Put)
    ensures Apply(store, [a, b, c, d]) == store[a.key := a.value][b.key := b.value][c.key := c.value][d.key := d.value]
  {
    ApplyOne(store, [], a);
    ApplyOne(store, [a], b);
    ApplyOne(store, [a, b], c);
    ApplyOne(store, [a, b, c], d);
    assert [] + [a] == [a] && [a] + [b] == [a, b] && [a, b] + [c] == [a, b, c] && [a, b, c] + [d] == [a, b, c, d];
  }

  lemma OtherConfig(a: Store, b: Store)
    requires forall k | k != EntryPartSize && k != NumEntryParts :: (k in a <==> k in b) && (k in a ==> a[k] == b[k])
    ensures GetInt(b, DataPartSize) == GetInt(a, DataPartSize) && GetInt(b, NumDataParts) == GetInt(a, NumDataParts)
  {
  }

  method PutEntryParts(store: CascadeStore, from: int, to: int, size: int)
    modifies store
    ensures store.objects == Apply(old(store.objects), EntryPuts(from, to, size))
  {
    hide Apply;
    ghost var before := store.objects;
    ApplyNothing(before);
    var i := from;
    while i < to
      invariant from <= i && (i <= to || i == from)
      invariant store.objects == Apply(before, EntryPuts(from, i, size))
    {
      store.PutObject(EntryPart(i), Blob(size));
      ApplyOne(before, EntryPuts(from, i, size), Put(EntryPart(i), Blob(size)));
      i := i + 1;
    }
    assert EntryPuts(from, i, size) == EntryPuts(from, to, size);
  }

  method PutDataParts(store: CascadeStore, categories: nat, from: int, to: int, size: int)
    modifies store
    ensures store.objects == Apply(old(store.objects), CategoriesPuts(categories, from, to, size))
  {
    hide Apply, CategoriesPuts, Decimal;
    ghost var before := store.objects;
    ApplyNothing(before);
    NoCategories(from, to, size);
    for c := 0 to categories
      invariant store.objects == Apply(before, CategoriesPuts(c, from, to, size))
    {
      ghost var start := store.objects;
      ApplyNothing(start);
      var i := from;
      while i < to
        invariant from <= i && (i <= to || i == from)
        invariant store.objects == Apply(start, DataPuts(c, from, i, size))
      {
        store.PutObject(DataPart(Decimal(c), i), Blob(size));
        ApplyOne(start, DataPuts(c, from, i, size), Put(DataPart(Decimal(c), i), Blob(size)));
        i := i + 1;
      }
      assert DataPuts(c, from, i, size) == DataPuts(c, from, to, size);
      NextCategory(c, from, to, size);
      ApplyAppend(before, CategoriesPuts(c, from, to, size), DataPuts(c, from, to, size));
    }
  }

  lemma NoCategories(from: int, to: int, size: int)
    ensures CategoriesPuts(0, from, to, size) == []
  {
  }

  lemma NextCategory(c: nat, from: int, to: int, size: int)
    ensures CategoriesPuts(c + 1, from, to, size) == CategoriesPuts(c, from, to, size) + DataPuts(c, from, to, size)
  {
  }
}
