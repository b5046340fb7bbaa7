/** What the store holds after any sequence of clients has been set up. */
module SetupRuns {
  import opened Common
  import opened Text
  import opened PipelineKeys
  import opened Setup

  // ----- Names

  lemma ToStringInjective(i: int, j: int)
    requires ToString(i) == ToString(j)
    ensures i == j
  {
    if i < 0 && j < 0 {
      assert ToString(i)[1..] == Decimal(-i) && ToString(j)[1..] == Decimal(-j);
      DecimalInjective(-i, -j);
    } else if i >= 0 && j >= 0 {
      DecimalInjective(i, j);
    } else {
      var (n, m) := if i < 0 then (i, j) else (j, i);
      assert ToString(n)[0] == '-';
      assert Decimal(m)[0] in Decimal(m);
    }
  }

  /** Different things are stored under different keys, and exactly the configuration is under its path. */
  lemma NamesDistinct(a: StoreKey, b: StoreKey)
    ensures Name(a) == Name(b) ==> a == b
    ensures IsConfig(a) <==> CONFIG_PATH <= Name(a)
  {
    hide Decimal, ToString;
    NameMarks(a);
    NameMarks(b);
    if Name(a) == Name(b) {
      SameKind(a, b);
    }
  }

  lemma EntrySizeSpelled()
    ensures Name(EntryPartSize) == "/config/entry_part_size"
  {
  }

  lemma DataSizeSpelled()
    ensures Name(DataPartSize) == "/config/data_part_size"
  {
  }

  lemma EntryCountSpelled()
    ensures Name(NumEntryParts) == "/config/num_entry_parts"
  {
  }

  lemma DataCountSpelled()
    ensures Name(NumDataParts) == "/config/num_data_parts"
  {
  }

  lemma ClientSpelled(client: nat)
    ensures Name(ClientAddress(client)) == "/config/client_" + Decimal(client)
  {
    hide Decimal;
    assert CONFIG_PATH + "/client_" == "/config/client_";
  }

  lemma EntrySpelled(i: int)
    ensures Name(EntryPart(i)) == "/entry/data_" + ToString(i)
  {
    hide Decimal, ToString;
    assert ENTRY_DATA_PREFIX + "_" == "/entry/data_";
  }

  lemma DataSpelled(category: string, i: int)
    ensures Name(DataPart(category, i)) == "/category/data/" + category + "/" + ToString(i)
  {
    hide Decimal, ToString;
    assert DATA_PREFIX == "/category/data/";
  }

  /** How the keys read, to the letter. */
  lemma NamesSpelled(client: nat, i: int, category: string)
    ensures Name(EntryPartSize) == "/config/entry_part_size" && Name(NumEntryParts) == "/config/num_entry_parts"
    ensures Name(DataPartSize) == "/config/data_part_size" && Name(NumDataParts) == "/config/num_data_parts"
    ensures Name(ClientAddress(client)) == "/config/client_" + Decimal(client)
    ensures Name(EntryPart(i)) == "/entry/data_" + ToString(i)
    ensures Name(DataPart(category, i)) == "/category/data/" + category + "/" + ToString(i)
  {
    hide Name, Decimal, ToString;
    EntrySizeSpelled();
    DataSizeSpelled();
    EntryCountSpelled();
    DataCountSpelled();
    ClientSpelled(client);
    EntrySpelled(i);
    DataSpelled(category, i);
  }

  /** Characters that tell the kinds of keys apart. */
  lemma NameMarks(k: StoreKey)
    ensures |Name(k)| > 12 && CONFIG_PATH[2] == 'o'
    ensures Name(k)[1] == (if k.EntryPart? then 'e' else 'c')
    ensures Name(k)[2] == (if k.EntryPart? then 'n' else if k.DataPart? then 'a' else 'o')
    ensures IsConfig(k) ==> CONFIG_PATH <= Name(k)
    ensures IsConfig(k) ==>
              Name(k)[8] == match k case EntryPartSize => 'e' case DataPartSize => 'd' case ClientAddress(_) => 'c' case _ => 'n'
    ensures k.NumEntryParts? ==> Name(k)[12] == 'e'
    ensures k.NumDataParts? ==> Name(k)[12] == 'd'
  {
    hide Name, Decimal, ToString;
    match k {
      case ClientAddress(client) => ClientSpelled(client);
      case EntryPart(i) =>
        EntrySpelled(i);
        NotEmpty(i);
      case DataPart(category, i) => DataSpelled(category, i);
      case EntryPartSize => EntrySizeSpelled();
      case DataPartSize => DataSizeSpelled();
      case NumEntryParts => EntryCountSpelled();
      case NumDataParts => DataCountSpelled();
    }
  }

  lemma NotEmpty(i: int)
    ensures ToString(i) != ""
  {
  }

  lemma NoSlash(i: int)
    ensures '/' !in ToString(i)
  {
  }

  /** Two texts that are the same are cut the same way at their last slash. */
  lemma LastSlash(a: string, x: string, b: string, y: string)
    requires a + "/" + x == b + "/" + y && '/' !in x && '/' !in y
    ensures a == b && x == y
  {
    var s := a + "/" + x;
    assert |s| == |b| + 1 + |y| && s[|a|] == '/' && s[|b|] == '/';
    assert forall i | |a| < i < |s| :: s[i] == x[i - |a| - 1];
    assert forall i | |b| < i < |s| :: s[i] == y[i - |b| - 1];
    assert |a| == |b|;
    assert s[..|a|] == a && s[..|b|] == b;
    assert s[|a| + 1..] == x && s[|b| + 1..] == y;
  }

  lemma SameKind(a: StoreKey, b: StoreKey)
    requires Name(a) == Name(b)
    ensures a == b
  {
    hide Decimal, ToString;
    NameMarks(a);
    NameMarks(b);
    match a {
      case ClientAddress(c) =>
        var prefix := CONFIG_PATH + "/client_";
        assert Name(a)[|prefix|..] == Decimal(c) && Name(b)[|prefix|..] == Decimal(b.client);
        DecimalInjective(c, b.client);
      case EntryPart(i) =>
        var prefix := ENTRY_DATA_PREFIX + "_";
        assert Name(a)[|prefix|..] == ToString(i) && Name(b)[|prefix|..] == ToString(b.i);
        ToStringInjective(i, b.i);
      case DataPart(c, i) =>
        assert Name(a)[|DATA_PREFIX|..] == c + "/" + ToString(i);
        assert Name(b)[|DATA_PREFIX|..] == b.category + "/" + ToString(b.i);
        NoSlash(i);
        NoSlash(b.i);
        LastSlash(c, ToString(i), b.category, ToString(b.i));
        ToStringInjective(i, b.i);
      case _ =>
    }
  }

  // ----- Puts by key

  function Count(puts: seq<Put>, k: StoreKey): nat {
    if puts == [] then 0
    else Count(puts[..|puts| - 1], k) + if puts[|puts| - 1].key == k then 1 else 0
  }

  ghost predicate OnlyPuts(puts: seq<Put>, k: StoreKey, v: Value) {
    forall x | x in puts && x.key == k :: x.value == v
  }

  lemma {:induction false} CountAppend(xs: seq<Put>, ys: seq<Put>, k: StoreKey)
    ensures Count(xs + ys, k) == Count(xs, k) + Count(ys, k)
  {
    if ys == [] {
      assert xs + ys == xs;
    } else {
      var n := |ys| - 1;
      CountAppend(xs, ys[..n], k);
      assert (xs + ys)[..|xs + ys| - 1] == xs + ys[..n];
    }
  }

  lemma {:induction false} Untouched(store: Store, puts: seq<Put>, k: StoreKey)
    requires Count(puts, k) == 0
    ensures k in Apply(store, puts) <==> k in store
    ensures k in store ==> Apply(store, puts)[k] == store[k]
  {
    if puts != [] {
      Untouched(store, puts[..|puts| - 1], k);
    }
  }

  lemma {:induction false} Written(store: Store, puts: seq<Put>, k: StoreKey, v: Value)
    requires Count(puts, k) > 0 && OnlyPuts(puts, k, v)
    ensures k in Apply(store, puts) && Apply(store, puts)[k] == v
  {
    var n := |puts| - 1;
    assert puts[n] in puts;
    if puts[n].key != k {
      Written(store, puts[..n], k, v);
    }
  }

  // ----- The two kinds of data

  datatype Kind = Entry | Data(category: string)

  function SizeKey(kind: Kind): StoreKey { if kind.Entry? then EntryPartSize else DataPartSize }

  function PartsKey(kind: Kind): StoreKey { if kind.Entry? then NumEntryParts else NumDataParts }

  function PartKey(kind: Kind, i: int): StoreKey { if kind.Entry? then EntryPart(i) else DataPart(kind.category, i) }

  function SizeOf(r: Request, kind: Kind): int { if kind.Entry? then r.entrySize else r.dataSize }

  function PartsOf(r: Request, kind: Kind): int { if kind.Entry? then r.entryParts else r.dataParts }

  /** The kinds of data that a deployment with so many categories has. */
  ghost predicate IsCategory(category: string, categories: nat) {
    exists c: nat :: c < categories && category == Decimal(c)
  }

  ghost predicate Deployed(kind: Kind, categories: nat) {
    kind.Data? ==> IsCategory(kind.category, categories)
  }

  function Published(store: Store, kind: Kind): int {
    GetInt(store, PartsKey(kind))
  }

  function PublishedSize(store: Store, kind: Kind): int {
    GetInt(store, SizeKey(kind))
  }

  function First(store: Store, r: Request, kind: Kind): int {
    FirstPart(Configured(store), PublishedSize(store, kind), Published(store, kind), SizeOf(r, kind), PartsOf(r, kind))
  }

  function AfterSetup(store: Store, r: Request, categories: nat): Store {
    Apply(store, SetupPuts(store, r, categories))
  }

  // ----- Which parts a setup puts

  lemma {:induction false} EntryCount(from: int, to: int, size: int, i: int)
    ensures Count(EntryPuts(from, to, size), EntryPart(i)) == if from <= i < to then 1 else 0
    ensures OnlyPuts(EntryPuts(from, to, size), EntryPart(i), Blob(size))
    ensures (forall k: StoreKey | !k.EntryPart? :: Count(EntryPuts(from, to, size), k) == 0)
    decreases (to - from)
  {
    if from < to {
      EntryCount(from, to - 1, size, i);
    }
  }

  lemma {:induction false} DataCount(c: nat, from: int, to: int, size: int, d: string, i: int)
    ensures Count(DataPuts(c, from, to, size), DataPart(d, i)) == if Decimal(c) == d && from <= i < to then 1 else 0
    ensures OnlyPuts(DataPuts(c, from, to, size), DataPart(d, i), Blob(size))
    ensures (forall k: StoreKey | !k.DataPart? :: Count(DataPuts(c, from, to, size), k) == 0)
    decreases (to - from)
  {
    hide Decimal;
    if from < to {
      DataCount(c, from, to - 1, size, d, i);
    }
  }

  lemma NextIsCategory(categories: nat, d: string)
    ensures IsCategory(d, categories + 1) <==> IsCategory(d, categories) || d == Decimal(categories)
    ensures !IsCategory(Decimal(categories), categories)
  {
    hide Decimal;
    if IsCategory(Decimal(categories), categories) {
      var c: nat :| c < categories && Decimal(categories) == Decimal(c);
      DecimalInjective(categories, c);
    }
    if c: nat :| c < categories + 1 && d == Decimal(c) {
      assert c < categories || c == categories;
    }
  }

  lemma {:induction false} CategoriesCount(categories: nat, from: int, to: int, size: int, d: string, i: int)
    ensures Count(CategoriesPuts(categories, from, to, size), DataPart(d, i))
         == if IsCategory(d, categories) && from <= i < to then 1 else 0
    ensures OnlyPuts(CategoriesPuts(categories, from, to, size), DataPart(d, i), Blob(size))
    ensures forall k: StoreKey | !k.DataPart? :: Count(CategoriesPuts(categories, from, to, size), k) == 0
  {
    hide DataPuts, Decimal;
    if categories > 0 {
      var xs, ys := CategoriesPuts(categories - 1, from, to, size), DataPuts(categories - 1, from, to, size);
      CategoriesCount(categories - 1, from, to, size, d, i);
      DataCount(categories - 1, from, to, size, d, i);
      NextIsCategory(categories - 1, d);
      forall k ensures Count(xs + ys, k) == Count(xs, k) + Count(ys, k) {
        CountAppend(xs, ys, k);
      }
    }
  }

  lemma {:induction false} CountZero(puts: seq<Put>, k: StoreKey)
    requires forall x | x in puts :: x.key != k
    ensures Count(puts, k) == 0
  {
    if puts != [] {
      CountZero(puts[..|puts| - 1], k);
    }
  }

  lemma ConfigCount(store: Store, r: Request, k: StoreKey)
    requires !IsConfig(k)
    ensures Count(ConfigPuts(store, r), k) == 0
    ensures forall v :: OnlyPuts(ConfigPuts(store, r), k, v)
  {
    hide Configured, GetInt;
    CountZero(ConfigPuts(store, r), k);
  }

  lemma PartsFromFirst(store: Store, r: Request, categories: nat, kind: Kind, i: int)
    requires Deployed(kind, categories)
    ensures Count(SetupPuts(store, r, categories), PartKey(kind, i))
         == if First(store, r, kind) <= i < PartsOf(r, kind) then 1 else 0
    ensures OnlyPuts(SetupPuts(store, r, categories), PartKey(kind, i), Blob(SizeOf(r, kind)))
  {
    hide ConfigPuts, EntryPuts, CategoriesPuts, FirstPart, Count, GetInt, Configured;
    var k := PartKey(kind, i);
    var x := ConfigPuts(store, r);
    var from, start := First(store, r, Entry), First(store, r, Data(""));
    var y := EntryPuts(from, r.entryParts, r.entrySize);
    var z := CategoriesPuts(categories, start, r.dataParts, r.dataSize);
    assert SetupPuts(store, r, categories) == x + y + z;
    CountAppend(x + y, z, k);
    CountAppend(x, y, k);
    ConfigCount(store, r, k);
    EntryCount(from, r.entryParts, r.entrySize, i);
    CategoriesCount(categories, start, r.dataParts, r.dataSize, if kind.Data? then kind.category else "", i);
    if kind.Entry? {
      NoSuchPuts(z, k, Blob(r.entrySize));
    } else {
      NoSuchPuts(y, k, Blob(r.dataSize));
    }
    OnlyPutsAppend(x, y, z, k, Blob(SizeOf(r, kind)));
  }

  /**
   What one setup puts. A client that finds its own part size published puts the parts from the published count
   on; any other client puts all of its parts; each is put once and with the requested size. A negative count
   that is published or requested makes the loop start there.
   */
  lemma PartsPut(store: Store, r: Request, categories: nat, kind: Kind, i: int)
    requires Deployed(kind, categories)
    ensures var known := Configured(store) && PublishedSize(store, kind) == SizeOf(r, kind);
            var from := if known then Published(store, kind) else 0;
            Count(SetupPuts(store, r, categories), PartKey(kind, i)) == if from <= i < PartsOf(r, kind) then 1 else 0
    ensures OnlyPuts(SetupPuts(store, r, categories), PartKey(kind, i), Blob(SizeOf(r, kind)))
  {
    hide SetupPuts, Configured, GetInt, Count, OnlyPuts, Deployed;
    PartsFromFirst(store, r, categories, kind, i);
  }

  /** No part is put for anything but the categories of the deployment. */
  lemma OtherCategories(store: Store, r: Request, categories: nat, category: string, i: int)
    requires !IsCategory(category, categories)
    ensures Count(SetupPuts(store, r, categories), DataPart(category, i)) == 0
  {
    hide ConfigPuts, EntryPuts, CategoriesPuts, FirstPart, Count, GetInt, Configured;
    var k := DataPart(category, i);
    var x := ConfigPuts(store, r);
    var y := EntryPuts(First(store, r, Entry), r.entryParts, r.entrySize);
    var z := CategoriesPuts(categories, First(store, r, Data("")), r.dataParts, r.dataSize);
    assert SetupPuts(store, r, categories) == x + y + z;
    CountAppend(x + y, z, k);
    CountAppend(x, y, k);
    ConfigCount(store, r, k);
    EntryCount(First(store, r, Entry), r.entryParts, r.entrySize, i);
    CategoriesCount(categories, First(store, r, Data("")), r.dataParts, r.dataSize, category, i);
  }

  lemma {:induction false} NoSuchPuts(puts: seq<Put>, k: StoreKey, v: Value)
    requires Count(puts, k) == 0
    ensures OnlyPuts(puts, k, v)
  {
    if puts != [] {
      var n := |puts| - 1;
      NoSuchPuts(puts[..n], k, v);
      assert puts == puts[..n] + [puts[n]];
    }
  }

  lemma OnlyPutsAppend(x: seq<Put>, y: seq<Put>, z: seq<Put>, k: StoreKey, v: Value)
    requires OnlyPuts(x, k, v) && OnlyPuts(y, k, v) && OnlyPuts(z, k, v)
    ensures OnlyPuts(x + y + z, k, v)
  {
  }

  // ----- What a setup publishes

  /** The published sizes and counts are all there, once anything is. */
  ghost predicate Published4(store: Store) {
    Configured(store) ==>
      forall k :: k == EntryPartSize || k == NumEntryParts || k == DataPartSize || k == NumDataParts ==>
        k in store && store[k].Number?
  }

  function NextCount(configured: bool, size: int, publishedSize: int, published: int, parts: int): int {
    if !configured then parts
    else if publishedSize != size then published
    else if published < parts then parts
    else published
  }

  lemma PublishedByConfig(store: Store, r: Request)
    requires Published4(store)
    ensures var s := Apply(store, ConfigPuts(store, r));
            && Configured(s) && Published4(s)
            && forall kind: Kind :: PublishedSize(s, kind) == SizeOf(r, kind)
                 && Published(s, kind) == NextCount(Configured(store), SizeOf(r, kind), PublishedSize(store, kind),
                                                    Published(store, kind), PartsOf(r, kind))
  {
    hide Configured, Apply, PublishPuts, NextCount;
    var c := Configured(store);
    var a := PublishPuts(c, GetInt(store, EntryPartSize), GetInt(store, NumEntryParts), r.entrySize, r.entryParts,
                         EntryPartSize, NumEntryParts);
    var b := PublishPuts(c, GetInt(store, DataPartSize), GetInt(store, NumDataParts), r.dataSize, r.dataParts,
                         DataPartSize, NumDataParts);
    var last := Put(ClientAddress(r.client), Address(r.ip));
    assert ConfigPuts(store, r) == a + b + [last];
    ApplyOne(store, a + b, last);
    ApplyAppend(store, a, b);
    ApplyPublish(store, c, r.entrySize, r.entryParts, EntryPartSize, NumEntryParts);
    var s1 := Apply(store, a);
    assert GetInt(s1, DataPartSize) == GetInt(store, DataPartSize) && GetInt(s1, NumDataParts) == GetInt(store, NumDataParts);
    ApplyPublish(s1, c, r.dataSize, r.dataParts, DataPartSize, NumDataParts);
    IsConfigured(Apply(store, ConfigPuts(store, r)), EntryPartSize);
  }

  lemma IsConfigured(s: Store, k: StoreKey)
    requires k in s && IsConfig(k)
    ensures Configured(s)
  {
  }

  lemma ApplyPublish(store: Store, c: bool, size: int, parts: int, sizeKey: StoreKey, partsKey: StoreKey)
    requires sizeKey != partsKey
    requires c ==> sizeKey in store && store[sizeKey].Number? && partsKey in store && store[partsKey].Number?
    ensures var s := Apply(store, PublishPuts(c, GetInt(store, sizeKey), GetInt(store, partsKey), size, parts,
                                              sizeKey, partsKey));
            && (forall k | k != sizeKey && k != partsKey :: (k in s <==> k in store) && (k in s ==> s[k] == store[k]))
            && sizeKey in s && s[sizeKey] == Number(size)
            && partsKey in s
            && s[partsKey] == Number(NextCount(c, size, GetInt(store, sizeKey), GetInt(store, partsKey), parts))
  {
    var puts := PublishPuts(c, GetInt(store, sizeKey), GetInt(store, partsKey), size, parts, sizeKey, partsKey);
    ApplyNothing(store);
    if |puts| == 1 {
      ApplyOne(store, [], puts[0]);
      assert puts == [] + [puts[0]];
    } else if |puts| == 2 {
      ApplyOne(store, [], puts[0]);
      ApplyOne(store, [puts[0]], puts[1]);
      assert [] + [puts[0]] == [puts[0]] && puts == [puts[0]] + [puts[1]];
    }
  }

  /** A setup publishes only what is new: a size that differs, a larger count for the same size, and its address. */
  lemma ConfigPutsCount(store: Store, r: Request, categories: nat, kind: Kind, client: nat)
    ensures var puts, known := SetupPuts(store, r, categories), Configured(store);
            var same := known && PublishedSize(store, kind) == SizeOf(r, kind);
            && Count(puts, SizeKey(kind)) == (if same then 0 else 1)
            && Count(puts, PartsKey(kind))
               == (if !known || (same && Published(store, kind) < PartsOf(r, kind)) then 1 else 0)
            && Count(puts, ClientAddress(client)) == (if client == r.client then 1 else 0)
  {
    hide Count, SetupPuts, Configured, GetInt;
    ConfigKeyCount(store, r, categories, SizeKey(kind));
    ConfigKeyCount(store, r, categories, PartsKey(kind));
    ConfigKeyCount(store, r, categories, ClientAddress(client));
  }

  lemma ConfigKeyCount(store: Store, r: Request, categories: nat, k: StoreKey)
    requires IsConfig(k)
    ensures var c, e, d := Configured(store), PublishedSize(store, Entry), PublishedSize(store, Data(""));
            Count(SetupPuts(store, r, categories), k) == match k
              case EntryPartSize => if c && e == r.entrySize then 0 else 1
              case DataPartSize => if c && d == r.dataSize then 0 else 1
              case NumEntryParts => if !c || (e == r.entrySize && Published(store, Entry) < r.entryParts) then 1 else 0
              case NumDataParts => if !c || (d == r.dataSize && Published(store, Data("")) < r.dataParts) then 1 else 0
              case ClientAddress(client) => if client == r.client then 1 else 0
              case _ => 0
  {
    hide Count, SetupPuts, Configured, GetInt, PublishPuts;
    var c := Configured(store);
    var a := PublishPuts(c, GetInt(store, EntryPartSize), GetInt(store, NumEntryParts), r.entrySize, r.entryParts,
                         EntryPartSize, NumEntryParts);
    var b := PublishPuts(c, GetInt(store, DataPartSize), GetInt(store, NumDataParts), r.dataSize, r.dataParts,
                         DataPartSize, NumDataParts);
    var last := Put(ClientAddress(r.client), Address(r.ip));
    OnlyConfigCounts(store, r, categories, k);
    assert ConfigPuts(store, r) == a + b + [last];
    CountAppend(a + b, [last], k);
    CountAppend(a, b, k);
    CountOne(last, k);
    PublishCount(c, GetInt(store, EntryPartSize), GetInt(store, NumEntryParts), r.entrySize, r.entryParts,
                 EntryPartSize, NumEntryParts, k);
    PublishCount(c, GetInt(store, DataPartSize), GetInt(store, NumDataParts), r.dataSize, r.dataParts,
                 DataPartSize, NumDataParts, k);
  }

  lemma CountOne(x: Put, k: StoreKey)
    ensures Count([x], k) == if x.key == k then 1 else 0
  {
    assert [x][..0] == [];
  }

  lemma PublishCount(c: bool, publishedSize: int, published: int, size: int, parts: int,
                     sizeKey: StoreKey, partsKey: StoreKey, k: StoreKey)
    requires sizeKey != partsKey
    ensures var puts := PublishPuts(c, publishedSize, published, size, parts, sizeKey, partsKey);
            Count(puts, k) == (if k == sizeKey && !(c && publishedSize == size) then 1
                               else if k == partsKey && (!c || (publishedSize == size && published < parts)) then 1 else 0)
  {
    hide Count;
    var puts := PublishPuts(c, publishedSize, published, size, parts, sizeKey, partsKey);
    if |puts| == 0 {
      CountZero(puts, k);
    } else if |puts| == 1 {
      assert puts == [puts[0]];
      CountOne(puts[0], k);
    } else {
      assert puts == [puts[0]] + [puts[1]];
      CountAppend([puts[0]], [puts[1]], k);
      CountOne(puts[0], k);
      CountOne(puts[1], k);
    }
  }

  lemma OnlyConfigCounts(store: Store, r: Request, categories: nat, k: StoreKey)
    requires IsConfig(k)
    ensures Count(SetupPuts(store, r, categories), k) == Count(ConfigPuts(store, r), k)
  {
    hide ConfigPuts, EntryPuts, CategoriesPuts, FirstPart, Count, GetInt, Configured;
    var x := ConfigPuts(store, r);
    var y := EntryPuts(First(store, r, Entry), r.entryParts, r.entrySize);
    var z := CategoriesPuts(categories, First(store, r, Data("")), r.dataParts, r.dataSize);
    assert SetupPuts(store, r, categories) == x + y + z;
    CountAppend(x + y, z, k);
    CountAppend(x, y, k);
    EntryCount(First(store, r, Entry), r.entryParts, r.entrySize, 0);
    CategoriesCount(categories, First(store, r, Data("")), r.dataParts, r.dataSize, "", 0);
  }

  // ----- The order of puts

  function Rank(k: StoreKey): nat {
    match k
    case EntryPartSize => 0
    case NumEntryParts => 1
    case DataPartSize => 2
    case NumDataParts => 3
    case ClientAddress(_) => 4
    case EntryPart(_) => 5
    case DataPart(_, _) => 6
  }

  /** The sizes and counts come first, then the address, the entry parts, and the parts category by category. */
  ghost predicate Precedes(a: StoreKey, b: StoreKey) {
    || Rank(a) < Rank(b)
    || (a.EntryPart? && b.EntryPart? && a.i < b.i)
    || (a.DataPart? && b.DataPart? && exists c: nat, d: nat ::
          a.category == Decimal(c) && b.category == Decimal(d) && (c < d || (c == d && a.i < b.i)))
  }

  ghost predicate InOrder(puts: seq<Put>) {
    forall i, j | 0 <= i < j < |puts| :: Precedes(puts[i].key, puts[j].key)
  }

  lemma InOrderAppend(xs: seq<Put>, ys: seq<Put>)
    requires InOrder(xs) && InOrder(ys)
    requires forall x, y | x in xs && y in ys :: Precedes(x.key, y.key)
    ensures InOrder(xs + ys)
  {
    hide Precedes;
    var puts := xs + ys;
    forall i, j | 0 <= i < j < |puts| ensures Precedes(puts[i].key, puts[j].key) {
      if i < |xs| <= j {
        assert puts[i] in xs && puts[j] in ys;
      } else if |xs| <= i {
        assert Precedes(ys[i - |xs|].key, ys[j - |xs|].key);
      }
    }
  }

  lemma {:induction false} EntryInOrder(from: int, to: int, size: int)
    ensures InOrder(EntryPuts(from, to, size))
    ensures forall x | x in EntryPuts(from, to, size) :: x.key.EntryPart? && x.key.i < to
    decreases (to - from)
  {
    if from < to {
      EntryInOrder(from, to - 1, size);
      InOrderAppend(EntryPuts(from, to - 1, size), [Put(EntryPart(to - 1), Blob(size))]);
    }
  }

  ghost predicate PartOf(k: StoreKey, c: nat, to: int) {
    k.DataPart? && k.category == Decimal(c) && k.i < to
  }

  lemma {:induction false} DataInOrder(c: nat, from: int, to: int, size: int)
    ensures InOrder(DataPuts(c, from, to, size))
    ensures forall x | x in DataPuts(c, from, to, size) :: PartOf(x.key, c, to)
    decreases (to - from)
  {
    hide Decimal;
    if from < to {
      DataInOrder(c, from, to - 1, size);
      var xs, y := DataPuts(c, from, to - 1, size), Put(DataPart(Decimal(c), to - 1), Blob(size));
      forall x | x in xs ensures Precedes(x.key, y.key) {
        assert PartOf(x.key, c, to - 1);
      }
      InOrderAppend(xs, [y]);
    }
  }

  ghost predicate PartBelow(k: StoreKey, n: nat) {
    k.DataPart? && exists c: nat :: c < n && k.category == Decimal(c)
  }

  lemma {:induction false} CategoriesInOrder(n: nat, from: int, to: int, size: int)
    ensures InOrder(CategoriesPuts(n, from, to, size))
    ensures forall x | x in CategoriesPuts(n, from, to, size) :: PartBelow(x.key, n)
  {
    hide Decimal, DataPuts, InOrder;
    if n == 0 {
      NothingInOrder();
    } else {
      CategoriesInOrder(n - 1, from, to, size);
      DataInOrder(n - 1, from, to, size);
      var xs, ys := CategoriesPuts(n - 1, from, to, size), DataPuts(n - 1, from, to, size);
      forall x, y | x in xs && y in ys ensures Precedes(x.key, y.key) {
        assert PartBelow(x.key, n - 1) && PartOf(y.key, n - 1, to);
      }
      InOrderAppend(xs, ys);
      forall x | x in xs + ys ensures PartBelow(x.key, n) {
        assert x in xs ==> PartBelow(x.key, n - 1);
        assert x in ys ==> PartOf(x.key, n - 1, to);
      }
    }
  }

  lemma NothingInOrder()
    ensures InOrder([])
  {
  }

  lemma ConfigInOrder(store: Store, r: Request)
    ensures InOrder(ConfigPuts(store, r)) && forall x | x in ConfigPuts(store, r) :: IsConfig(x.key)
  {
    hide Configured, GetInt;
  }

  /**
   One setup publishes before it puts any part, and puts the parts of each kind in ascending order. With the
   number of puts of each key this determines the whole sequence of keys.
   */
  lemma PutsInOrder(store: Store, r: Request, categories: nat, i: nat, j: nat)
    requires i < j < |SetupPuts(store, r, categories)|
    ensures var puts := SetupPuts(store, r, categories); Precedes(puts[i].key, puts[j].key)
  {
    hide ConfigPuts, EntryPuts, CategoriesPuts, FirstPart, GetInt, Configured, Decimal;
    var x := ConfigPuts(store, r);
    var y := EntryPuts(First(store, r, Entry), r.entryParts, r.entrySize);
    var z := CategoriesPuts(categories, First(store, r, Data("")), r.dataParts, r.dataSize);
    assert SetupPuts(store, r, categories) == x + y + z;
    ConfigInOrder(store, r);
    EntryInOrder(First(store, r, Entry), r.entryParts, r.entrySize);
    CategoriesInOrder(categories, First(store, r, Data("")), r.dataParts, r.dataSize);
    InOrderAppend(x, y);
    InOrderAppend(x + y, z);
  }

  lemma PublishedAfter(store: Store, r: Request, categories: nat, kind: Kind)
    requires Published4(store)
    ensures var s := AfterSetup(store, r, categories);
            && Configured(s) && Published4(s)
            && PublishedSize(s, kind) == SizeOf(r, kind)
            && Published(s, kind) == NextCount(Configured(store), SizeOf(r, kind), PublishedSize(store, kind),
                                               Published(store, kind), PartsOf(r, kind))
  {
    hide Apply, ConfigPuts, EntryPuts, CategoriesPuts, FirstPart, Count, Configured, NextCount, OnlyPuts;
    var x := ConfigPuts(store, r);
    var y := EntryPuts(First(store, r, Entry), r.entryParts, r.entrySize);
    var z := CategoriesPuts(categories, First(store, r, Data("")), r.dataParts, r.dataSize);
    assert SetupPuts(store, r, categories) == x + y + z;
    ApplyAppend(store, x + y, z);
    ApplyAppend(store, x, y);
    PublishedByConfig(store, r);
    var s, t := Apply(store, x), AfterSetup(store, r, categories);
    forall k | IsConfig(k) ensures k in t <==> k in s
      ensures k in s ==> t[k] == s[k]
    {
      EntryCount(First(store, r, Entry), r.entryParts, r.entrySize, 0);
      CategoriesCount(categories, First(store, r, Data("")), r.dataParts, r.dataSize, "", 0);
      Untouched(s, y, k);
      Untouched(Apply(s, y), z, k);
    }
    IsConfigured(t, EntryPartSize);
  }

  // ----- Runs

  function StoreAfter(reqs: seq<Request>, categories: nat): Store {
    if reqs == [] then map[] else AfterSetup(StoreAfter(reqs[..|reqs| - 1], categories), reqs[|reqs| - 1], categories)
  }

  /** Everything that has been put, over all setups. */
  function History(reqs: seq<Request>, categories: nat): seq<Put> {
    if reqs == [] then []
    else
      var n := |reqs| - 1;
      History(reqs[..n], categories) + SetupPuts(StoreAfter(reqs[..n], categories), reqs[n], categories)
  }

  lemma {:induction false} RunPublishes(reqs: seq<Request>, categories: nat)
    ensures Published4(StoreAfter(reqs, categories))
    ensures Configured(StoreAfter(reqs, categories)) <==> reqs != []
  {
    hide AfterSetup;
    if reqs != [] {
      var n := |reqs| - 1;
      RunPublishes(reqs[..n], categories);
      PublishedAfter(StoreAfter(reqs[..n], categories), reqs[n], categories, Entry);
    }
  }

  lemma PartAfter(store: Store, r: Request, categories: nat, kind: Kind, i: int)
    requires Deployed(kind, categories)
    ensures var s, k := AfterSetup(store, r, categories), PartKey(kind, i);
            if First(store, r, kind) <= i < PartsOf(r, kind) then k in s && s[k] == Blob(SizeOf(r, kind))
            else (k in s <==> k in store) && (k in store ==> s[k] == store[k])
  {
    hide Apply, SetupPuts, Count, OnlyPuts, FirstPart, Configured, GetInt;
    PartsFromFirst(store, r, categories, kind, i);
    var k := PartKey(kind, i);
    if First(store, r, kind) <= i < PartsOf(r, kind) {
      Written(store, SetupPuts(store, r, categories), k, Blob(SizeOf(r, kind)));
    } else {
      Untouched(store, SetupPuts(store, r, categories), k);
    }
  }

  /**
   After any sequence of client setups from an empty store, every part with an index below the published
   count is in the store, for the entry stage and for every category. So each key that the entry and category
   observers fetch is there.
   */
  lemma {:induction false} PublishedPartsExist(reqs: seq<Request>, categories: nat, kind: Kind, i: nat)
    requires Deployed(kind, categories) && reqs != []
    requires i < Published(StoreAfter(reqs, categories), kind)
    ensures PartKey(kind, i) in StoreAfter(reqs, categories)
  {
    hide AfterSetup, Configured, Published4, GetInt;
    var n := |reqs| - 1;
    var store, r := StoreAfter(reqs[..n], categories), reqs[n];
    RunPublishes(reqs[..n], categories);
    PublishedAfter(store, r, categories, kind);
    PartAfter(store, r, categories, kind, i);
    if n > 0 && i < Published(store, kind) {
      PublishedPartsExist(reqs[..n], categories, kind, i);
    }
  }

  function Largest(reqs: seq<Request>, kind: Kind): int
    requires reqs != []
  {
    var n := |reqs| - 1;
    if n == 0 then PartsOf(reqs[0], kind)
    else
      var m := Largest(reqs[..n], kind);
      if m < PartsOf(reqs[n], kind) then PartsOf(reqs[n], kind) else m
  }

  lemma LargestNext(reqs: seq<Request>, kind: Kind)
    requires |reqs| > 1
    ensures var n := |reqs| - 1; var m, parts := Largest(reqs[..n], kind), PartsOf(reqs[n], kind);
            Largest(reqs, kind) == if m < parts then parts else m
  {
  }

  lemma {:induction false} LargestIsMaximum(reqs: seq<Request>, kind: Kind)
    requires reqs != []
    ensures forall r | r in reqs :: PartsOf(r, kind) <= Largest(reqs, kind)
    ensures exists r :: r in reqs && PartsOf(r, kind) == Largest(reqs, kind)
  {
    var n := |reqs| - 1;
    assert reqs == reqs[..n] + [reqs[n]];
    if n > 0 {
      hide Largest, PartsOf;
      LargestIsMaximum(reqs[..n], kind);
      LargestNext(reqs, kind);
      var r :| r in reqs[..n] && PartsOf(r, kind) == Largest(reqs[..n], kind);
      var best := if PartsOf(r, kind) < PartsOf(reqs[n], kind) then reqs[n] else r;
      assert best in reqs && PartsOf(best, kind) == Largest(reqs, kind);
      forall x | x in reqs ensures PartsOf(x, kind) <= Largest(reqs, kind) {
        assert x in reqs[..n] || x == reqs[n];
      }
    } else {
      assert reqs[0] in reqs && PartsOf(reqs[0], kind) == Largest(reqs, kind);
    }
  }

  /** The first part that is ever put: zero, unless the first client asks for a negative number of parts. */
  function Lowest(reqs: seq<Request>, kind: Kind): int
    requires reqs != []
  {
    if PartsOf(reqs[0], kind) < 0 then PartsOf(reqs[0], kind) else 0
  }

  /**
   When all clients use one part size, the published count is the largest requested one. Over the whole run each
   part from the lowest up to that count is put exactly once and is in the store with that size, and no other
   part is ever put.
   */
  lemma {:induction false} OneSizeOnePut(reqs: seq<Request>, categories: nat, kind: Kind, size: int, i: int)
    requires Deployed(kind, categories) && reqs != []
    requires forall r | r in reqs :: SizeOf(r, kind) == size
    ensures var store, put := StoreAfter(reqs, categories), Lowest(reqs, kind) <= i < Largest(reqs, kind);
            && Published(store, kind) == Largest(reqs, kind) && PublishedSize(store, kind) == size
            && Count(History(reqs, categories), PartKey(kind, i)) == (if put then 1 else 0)
            && (put ==> PartKey(kind, i) in store && store[PartKey(kind, i)] == Blob(size))
  {
    hide AfterSetup, Configured, Published4, GetInt, Count, SetupPuts, Deployed;
    var n := |reqs| - 1;
    var store, r := StoreAfter(reqs[..n], categories), reqs[n];
    assert r in reqs;
    RunPublishes(reqs[..n], categories);
    PublishedAfter(store, r, categories, kind);
    PartAfter(store, r, categories, kind, i);
    PartsFromFirst(store, r, categories, kind, i);
    CountAppend(History(reqs[..n], categories), SetupPuts(store, r, categories), PartKey(kind, i));
    if n > 0 {
      OneSizeOnePut(reqs[..n], categories, kind, size, i);
      LargestIsMaximum(reqs[..n], kind);
      assert reqs[..n][0] == reqs[0] && reqs[0] in reqs[..n];
    } else {
      EmptyCount(PartKey(kind, i));
    }
  }

  lemma EmptyCount(k: StoreKey)
    ensures Count([], k) == 0
  {
  }

  // ----- Mixed part sizes

  /** Every part below the published count has the published size. */
  ghost predicate Uniform(store: Store, kind: Kind) {
    forall i: nat | i < Published(store, kind) ::
      PartKey(kind, i) in store && store[PartKey(kind, i)] == Blob(PublishedSize(store, kind))
  }

  /**
   Exactly when a setup keeps the parts and the published size consistent: a client with another part size
   leaves the published count alone, so the parts that it does not put itself keep the old size.
   */
  lemma UniformExactly(store: Store, r: Request, categories: nat, kind: Kind)
    requires Deployed(kind, categories) && Published4(store) && Configured(store) && Uniform(store, kind)
    ensures Uniform(AfterSetup(store, r, categories), kind) <==>
            SizeOf(r, kind) == PublishedSize(store, kind) || Published(store, kind) <= PartsOf(r, kind)
            || Published(store, kind) <= 0
  {
    hide AfterSetup, Configured, Published4, GetInt;
    var s := AfterSetup(store, r, categories);
    var same := SizeOf(r, kind) == PublishedSize(store, kind);
    PublishedAfter(store, r, categories, kind);
    if same || Published(store, kind) <= PartsOf(r, kind) || Published(store, kind) <= 0 {
      forall i: nat | i < Published(s, kind)
        ensures PartKey(kind, i) in s && s[PartKey(kind, i)] == Blob(PublishedSize(s, kind))
      {
        PartAfter(store, r, categories, kind, i);
      }
    } else {
      var i: nat := if PartsOf(r, kind) < 0 then 0 else PartsOf(r, kind);
      PartAfter(store, r, categories, kind, i);
      assert s[PartKey(kind, i)] == Blob(PublishedSize(store, kind));
    }
  }

  /**
   What a client finds of its own parts. Each of them is there with the size that the client asked for if and only
   if the client put it, because its size was not published or the part was not, or found it like that.
   */
  lemma OwnPartsExactly(store: Store, r: Request, categories: nat, kind: Kind, i: nat)
    requires Deployed(kind, categories) && Configured(store) && i < PartsOf(r, kind)
    ensures var s, k, blob := AfterSetup(store, r, categories), PartKey(kind, i), Blob(SizeOf(r, kind));
            k in s && s[k] == blob <==>
              || PublishedSize(store, kind) != SizeOf(r, kind) || Published(store, kind) <= i
              || (k in store && store[k] == blob)
  {
    hide AfterSetup, Configured, GetInt, Deployed;
    PartAfter(store, r, categories, kind, i);
  }

  /**
   Every client is served: after its setup of a consistent store, all of its parts are there with its own size,
   and if it came with another size than the published one, it has put each of them once and no other part.
   */
  lemma OwnParts(store: Store, r: Request, categories: nat, kind: Kind, i: int)
    requires Deployed(kind, categories) && Configured(store) && Uniform(store, kind)
    ensures var s, k, own := AfterSetup(store, r, categories), PartKey(kind, i), 0 <= i < PartsOf(r, kind);
            && (own ==> k in s && s[k] == Blob(SizeOf(r, kind)))
            && (PublishedSize(store, kind) != SizeOf(r, kind) ==>
                  Count(SetupPuts(store, r, categories), k) == if own then 1 else 0)
  {
    hide AfterSetup, SetupPuts, Configured, GetInt, Count, OnlyPuts, Deployed;
    PartsPut(store, r, categories, kind, i);
    if 0 <= i < PartsOf(r, kind) {
      OwnPartsExactly(store, r, categories, kind, i);
    }
  }

  /** Two clients: the second one wants larger parts but fewer of them, and one small part stays. */
  lemma MixedSizes()
    ensures var store := StoreAfter([Request(0, 10, 2, 10, 2, "a"), Request(1, 20, 1, 20, 1, "b")], 1);
            && Published(store, Entry) == 2 && PublishedSize(store, Entry) == 20
            && EntryPart(0) in store && store[EntryPart(0)] == Blob(20)
            && EntryPart(1) in store && store[EntryPart(1)] == Blob(10)
  {
    hide AfterSetup, Configured, Published4, GetInt;
    var a, b := Request(0, 10, 2, 10, 2, "a"), Request(1, 20, 1, 20, 1, "b");
    assert [a, b][..1] == [a] && [a][..0] == [];
    RunPublishes([], 1);
    RunPublishes([a], 1);
    OneSizeOnePut([a], 1, Entry, 10, 1);
    PublishedAfter(StoreAfter([a], 1), b, 1, Entry);
    PartAfter(StoreAfter([a], 1), b, 1, Entry, 0);
    PartAfter(StoreAfter([a], 1), b, 1, Entry, 1);
  }

  // ----- A client that starts in the middle of the setup of another one

  /**
   A client that finds its part size published, but not yet a count, publishes its own count and puts its parts
   from index -1 on. One that finds only an address published publishes a size without a count.
   */
  lemma HalfConfigured(store: Store, r: Request, categories: nat, kind: Kind)
    requires Deployed(kind, categories) && PartsKey(kind) !in store
    ensures SizeKey(kind) in store && store[SizeKey(kind)] == Number(SizeOf(r, kind)) && 0 <= PartsOf(r, kind) ==>
              && Count(SetupPuts(store, r, categories), PartsKey(kind)) == 1
              && Count(SetupPuts(store, r, categories), PartKey(kind, -1)) == 1
    ensures store.Keys == {ClientAddress(r.client)} && SizeOf(r, kind) != -1 ==>
              && Count(SetupPuts(store, r, categories), SizeKey(kind)) == 1
              && Count(SetupPuts(store, r, categories), PartsKey(kind)) == 0
  {
    hide Count, SetupPuts, OnlyPuts;
    if SizeKey(kind) in store {
      IsConfigured(store, SizeKey(kind));
    }
    if ClientAddress(r.client) in store {
      IsConfigured(store, ClientAddress(r.client));
    }
    PartsPut(store, r, categories, kind, -1);
    ConfigPutsCount(store, r, categories, kind, r.client);
  }
}
