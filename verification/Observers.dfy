/** The entry and category observers at work on a prepared store, and a request's way through all stages. */
module Observers {
  import opened Common
  import opened Text
  import opened PipelineKeys
  import opened Setup
  import opened SetupRuns

  /** Every part that an observer asks for is in the store. */
  ghost predicate PartsThere(store: Store, kind: Kind) {
    forall i: nat | i < Published(store, kind) :: PartKey(kind, i) in store
  }

  function Total(xs: seq<nat>): nat {
    if xs == [] then 0 else xs[0] + Total(xs[1..])
  }

  /** `Total` is the sum. */
  lemma {:induction false} TotalLaws(x: nat, xs: seq<nat>, ys: seq<nat>)
    ensures Total([]) == 0 && Total([x]) == x && Total(xs + ys) == Total(xs) + Total(ys)
  {
    assert [x][1..] == [];
    if xs == [] {
      assert xs + ys == ys;
    } else {
      TotalLaws(x, xs[1..], ys);
      assert (xs + ys)[1..] == xs[1..] + ys;
    }
  }

  /** The hashes of the published parts; a missing or negative count means that there are none. */
  function PartHashes(store: Store, kind: Kind, hash: Value -> nat): (hs: seq<nat>)
    requires PartsThere(store, kind)
    ensures |hs| == if Published(store, kind) < 0 then 0 else Published(store, kind)
    ensures forall i: nat | i < |hs| :: hs[i] == hash(store[PartKey(kind, i)])
  {
    var n := Published(store, kind);
    seq(if n < 0 then 0 else n, i requires 0 <= i < n => hash(store[PartKey(kind, i)]))
  }

  /** Without a published count no part is asked for, and a request's category depends on its own hash only. */
  lemma NothingPublished(store: Store, kind: Kind, hash: Value -> nat)
    requires PartsKey(kind) !in store
    ensures PartsThere(store, kind) && PartHashes(store, kind, hash) == []
  {
  }

  lemma NextHash(hs: seq<nat>, base: nat, i: nat)
    requires i < |hs|
    ensures (base + Total(hs[..i + 1])) % TWO_64 == ((base + Total(hs[..i])) % TWO_64 + hs[i]) % TWO_64
  {
    TotalLaws(hs[i], hs[..i], [hs[i]]);
    assert hs[..i + 1] == hs[..i] + [hs[i]];
    AddModulo(base + Total(hs[..i]), hs[i], TWO_64);
  }

  lemma AddModulo(a: nat, b: nat, m: nat)
    requires m > 0
    ensures (a % m + b) % m == (a + b) % m
  {
    var c := a % m + b;
    var q := a / m + c / m;
    assert (a / m) * m + (c / m) * m == q * m;
    Quotient(a + b, m, q);
  }

  /** Fetches all parts, then adds up their hashes. */
  method HashParts(store: CascadeStore, kind: Kind, hash: Value -> nat, base: nat) returns (sum: nat)
    requires PartsThere(store.objects, kind)
    ensures sum == (base + Total(PartHashes(store.objects, kind, hash))) % TWO_64
  {
    hide Total;
    ghost var hs := PartHashes(store.objects, kind, hash);
    var numParts := GetInt(store.objects, PartsKey(kind));
    var blobs: seq<Value> := [];
    var i := 0;
    while i < numParts
      invariant 0 <= i && (i <= numParts || i == 0) && |blobs| == i
      invariant forall j: nat | j < i :: PartKey(kind, j) in store.objects && blobs[j] == store.objects[PartKey(kind, j)]
    {
      blobs := blobs + [store.objects[PartKey(kind, i)]];
      i := i + 1;
    }
    sum := base % TWO_64;
    i := 0;
    TotalLaws(0, [], []);
    while i < numParts
      invariant 0 <= i <= |hs|
      invariant sum == (base + Total(hs[..i])) % TWO_64
    {
      NextHash(hs, base, i);
      sum := (sum + hash(blobs[i])) % TWO_64;
      i := i + 1;
    }
    assert hs[..i] == hs;
  }

  /**
   The entry observer: no key stands for an object that is ignored. The category is the remainder of the request's
   own hash and those of all published entry parts, added up in 64 bits.
   */
  method EntryObserver(store: CascadeStore, key: string, prefixLength: nat, hash: Value -> nat, base: nat, categories: nat)
    returns (out: Option<string>)
    requires prefixLength <= |key| && categories > 0
    requires PartsThere(store.objects, Entry)
    ensures out == None <==> exists rest :: key == "/entry/data" + rest
    ensures var hs := PartHashes(store.objects, Entry, hash);
            var category := (base + Total(hs)) % TWO_64 % categories;
            && category < categories && out == EntryRewrite(key, prefixLength, category)
            && (out.Some? ==> out.value == "/category/new/" + Decimal(category) + "/" + key[prefixLength..])
  {
    hide Total, PartHashes, Decimal, TWO_64;
    EntryIgnores(key, prefixLength, 0);
    if ENTRY_DATA_PREFIX <= key {
      return None;
    }
    var hashes := HashParts(store, Entry, hash, base);
    var category := hashes % categories;
    out := Some(NEW_PREFIX + Decimal(category) + "/" + key[prefixLength..]);
  }

  /** No part of the entry data is taken for a request, whatever puts it. */
  lemma EntryDataIgnored(i: int, category: nat)
    ensures |ENTRY_PREFIX| <= |Name(EntryPart(i))|
    ensures EntryRewrite(Name(EntryPart(i)), |ENTRY_PREFIX|, category) == None
  {
    hide Decimal, ToString;
    EntrySpelled(i);
    assert Name(EntryPart(i)) == "/entry/data" + ("_" + ToString(i));
    EntryIgnores(Name(EntryPart(i)), |ENTRY_PREFIX|, category);
  }

  /**
   The category observer: the key it puts and the result it puts there, for whatever the key names as category;
   a key without a slash behind the prefix names the same text as category and as object.
   */
  method CategoryObserver(store: CascadeStore, key: string, prefixLength: nat, hash: Value -> nat, base: nat)
    returns (out: string, result: nat)
    requires prefixLength <= |key|
    requires PartsThere(store.objects, Data(Before(key[prefixLength..], '/')))
    ensures out == CategoryRewrite(key, prefixLength)
    ensures '/' in key[prefixLength..] ==> out == "/category/output/" + key[prefixLength..]
    ensures '/' !in key[prefixLength..] ==> out == "/category/output/" + key[prefixLength..] + "/" + key[prefixLength..]
    ensures var kind := Data(Before(key[prefixLength..], '/'));
            result == (base + Total(PartHashes(store.objects, kind, hash))) % TWO_64
  {
    hide Total, PartHashes, Before, After, TWO_64;
    var values := key[prefixLength..];
    var category, objectId := Before(values, '/'), After(values, '/');
    result := HashParts(store, Data(category), hash, base);
    out := OUTPUT_PREFIX + category + "/" + objectId;
    CutAtFirst(values, '/');
    assert OUTPUT_PREFIX == "/category/output/";
  }

  // ----- Client addresses

  /** The address that the last setup of a client has published. */
  function LastAddress(reqs: seq<Request>, client: nat): Option<string> {
    if reqs == [] then None
    else
      var r := reqs[|reqs| - 1];
      if r.client == client then Some(r.ip) else LastAddress(reqs[..|reqs| - 1], client)
  }

  lemma AddressPut(store: Store, r: Request, categories: nat, client: nat)
    ensures var k, s := ClientAddress(client), AfterSetup(store, r, categories);
            if client == r.client then k in s && s[k] == Address(r.ip)
            else (k in s <==> k in store) && (k in store ==> s[k] == store[k])
  {
    hide Apply, EntryPuts, CategoriesPuts, FirstPart, Count, Configured, GetInt, PublishPuts;
    var k := ClientAddress(client);
    var x := ConfigPuts(store, r);
    var y := EntryPuts(First(store, r, Entry), r.entryParts, r.entrySize);
    var z := CategoriesPuts(categories, First(store, r, Data("")), r.dataParts, r.dataSize);
    assert SetupPuts(store, r, categories) == x + y + z;
    ApplyAppend(store, x + y, z);
    ApplyAppend(store, x, y);
    EntryCount(First(store, r, Entry), r.entryParts, r.entrySize, 0);
    CategoriesCount(categories, First(store, r, Data("")), r.dataParts, r.dataSize, "", 0);
    Untouched(Apply(store, x), y, k);
    Untouched(Apply(Apply(store, x), y), z, k);
    ConfigAddress(store, r, k);
  }

  lemma ConfigAddress(store: Store, r: Request, k: StoreKey)
    requires k.ClientAddress?
    ensures var s := Apply(store, ConfigPuts(store, r));
            if k.client == r.client then k in s && s[k] == Address(r.ip)
            else (k in s <==> k in store) && (k in store ==> s[k] == store[k])
  {
    hide Configured, GetInt;
    var last := Put(ClientAddress(r.client), Address(r.ip));
    var front := ConfigPuts(store, r)[..|ConfigPuts(store, r)| - 1];
    assert ConfigPuts(store, r) == front + [last];
    ApplyOne(store, front, last);
    CountZero(front, k);
    Untouched(store, front, k);
  }

  /** The return observer finds, for every client that has been set up, the address it published last. */
  lemma {:induction false} AddressPublished(reqs: seq<Request>, categories: nat, client: nat)
    ensures var k, s := ClientAddress(client), StoreAfter(reqs, categories);
            match LastAddress(reqs, client)
            case None => k !in s
            case Some(ip) => k in s && s[k] == Address(ip)
  {
    hide AfterSetup;
    if reqs != [] {
      var n := |reqs| - 1;
      AddressPublished(reqs[..n], categories, client);
      AddressPut(StoreAfter(reqs[..n], categories), reqs[n], categories, client);
    }
  }

  // ----- From end to end

  /**
   A request on its way. After any sequence of setups, every part that the entry observer fetches is there, so
   are the parts of the category it chooses, and what the return observer reads off the key that finally
   arrives is the category, the object and the client of the request, with the client's address on file.
   */
  lemma EndToEnd(reqs: seq<Request>, categories: nat, client: nat, object_: nat, hash: Value -> nat, base: nat)
    requires 0 < categories <= TWO_31 && object_ < TWO_31 && client < TWO_31
    requires LastAddress(reqs, client).Some?
    ensures var store := StoreAfter(reqs, categories);
            && PartsThere(store, Entry)
            && var category := (base + Total(PartHashes(store, Entry, hash))) % TWO_64 % categories;
            && PartsThere(store, Data(Decimal(category)))
            && Pipeline(client, object_, category) == Some(Returned(category, object_, client))
            && ClientAddress(client) in store && store[ClientAddress(client)] == Address(LastAddress(reqs, client).value)
            && Name(ClientAddress(client)) == "/config/client_" + Before(ObjectId(client, object_), '_')
  {
    hide StoreAfter, Pipeline, Before, Find, Published, Decimal, Total, PartHashes;
    var store := StoreAfter(reqs, categories);
    PartsOfKind(reqs, categories, Entry);
    var category := (base + Total(PartHashes(store, Entry, hash))) % TWO_64 % categories;
    assert IsCategory(Decimal(category), categories);
    PartsOfKind(reqs, categories, Data(Decimal(category)));
    PipelineRoundTrip(client, object_, category);
    AddressPublished(reqs, categories, client);
    ClientSpelled(client);
    DecimalHas(client, '_');
    FindFirst(Decimal(client), '_', Decimal(object_));
  }

  lemma PartsOfKind(reqs: seq<Request>, categories: nat, kind: Kind)
    requires reqs != [] && Deployed(kind, categories)
    ensures PartsThere(StoreAfter(reqs, categories), kind)
  {
    hide StoreAfter, Published, Deployed;
    var store := StoreAfter(reqs, categories);
    forall i: nat | i < Published(store, kind) ensures PartKey(kind, i) in store {
      PublishedPartsExist(reqs, categories, kind, i);
    }
  }
}
