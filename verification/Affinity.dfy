/** Affinity sets: which keys are kept together. */
module Affinity {
  import opened Common
  import opened Text
  import opened PipelineKeys
  import opened Setup

  const ENTRY_AFFINITY := "entry"

  predicate Under(tag: string, key2: string) {
    tag <= key2 && |key2| > |tag| + 1
  }

  /** The first path segment after a tag, if there is a slash behind it. */
  function Segment(tag: string, key2: string, otherwise: string): string
    requires Under(tag, key2)
  {
    var key3 := key2[|tag| + 1..];
    match Find(key3, '/')
    case None => otherwise
    case Some(i) => key3[..i]
  }

  /** What both logics do outside the entry path; the character after a tag is skipped unseen. */
  function CategoryAffinity(key: string): string {
    if CATEGORY_PATH <= key && |key| > |CATEGORY_PATH| + 1 then
      var key2 := key[|CATEGORY_PATH|..];
      var affinity :=
        if Under(NEW_KEY, key2) then Segment(NEW_KEY, key2, key)
        else if Under(OUTPUT_KEY, key2) then Segment(OUTPUT_KEY, key2, key)
        else if Under(DATA_KEY, key2) then Segment(DATA_KEY, key2, key)
        else key;
      if affinity == "" then key else affinity
    else key
  }

  /** AFFINITY_LOGIC 1: the entry stage is one set, and so is every category. */
  function Affinity1(key: string): string {
    if ENTRY_PATH <= key then ENTRY_AFFINITY else CategoryAffinity(key)
  }

  /** AFFINITY_LOGIC 2: only categories are sets. */
  function Affinity2(key: string): string {
    if ENTRY_PATH <= key then key else CategoryAffinity(key)
  }

  predicate IsTag(tag: string) {
    tag == NEW_KEY || tag == OUTPUT_KEY || tag == DATA_KEY
  }

  /** The keys of a category: a tag, any character, the category and a slash. */
  ghost predicate KeyOf(key: string, category: string) {
    exists tag: string, c: char, rest: string ::
      IsTag(tag) && key == CATEGORY_PATH + tag + [c] + category + "/" + rest
  }

  lemma SegmentOf(tag: string, c: char, category: string, rest: string, otherwise: string)
    requires '/' !in category && category != ""
    ensures var key2 := tag + [c] + category + "/" + rest;
            Under(tag, key2) && Segment(tag, key2, otherwise) == category
  {
    var key2 := tag + [c] + category + "/" + rest;
    assert key2[|tag| + 1..] == category + ['/'] + rest;
    FindFirst(category, '/', rest);
  }

  lemma TagsApart(a: string, b: string, key2: string)
    requires IsTag(a) && IsTag(b) && a != b && Under(a, key2)
    ensures !Under(b, key2)
  {
    assert key2[1] == a[1];
    assert NEW_KEY[1] == 'n' && OUTPUT_KEY[1] == 'o' && DATA_KEY[1] == 'd';
  }

  lemma CategoryKeyAffinity(tag: string, c: char, category: string, rest: string)
    requires IsTag(tag) && '/' !in category && category != ""
    ensures var key := CATEGORY_PATH + tag + [c] + category + "/" + rest;
            CategoryAffinity(key) == category && !(ENTRY_PATH <= key)
  {
    hide Under, Segment;
    var key := CATEGORY_PATH + tag + [c] + category + "/" + rest;
    var key2 := tag + [c] + category + "/" + rest;
    assert key[|CATEGORY_PATH|..] == key2;
    SegmentOf(tag, c, category, rest, key);
    forall other | IsTag(other) && other != tag ensures !Under(other, key2) {
      TagsApart(tag, other, key2);
    }
    assert key[1] == CATEGORY_PATH[1] && ENTRY_PATH[1] == 'e';
  }

  lemma Regroup(path: string, tag: string, c: char, a: string, rest: string)
    ensures path + (tag + ([c] + (a + ("/" + rest)))) == path + tag + [c] + a + "/" + rest
  {
  }

  lemma SegmentSlashFree(tag: string, key: string, key2: string)
    requires IsTag(tag) && Under(tag, key2) && key == CATEGORY_PATH + key2
    ensures var a := Segment(tag, key2, key);
            a == key || ('/' !in a && KeyOf(key, a))
  {
    hide Find;
    var key3 := key2[|tag| + 1..];
    match Find(key3, '/') {
      case None =>
      case Some(i) =>
        var a, c, rest := key3[..i], key2[|tag|], key3[i + 1..];
        SplitKey(tag, key2);
        assert key3 == a + ("/" + rest);
        Regroup(CATEGORY_PATH, tag, c, a, rest);
    }
  }

  lemma SplitKey(tag: string, key2: string)
    requires tag <= key2 && |key2| > |tag| + 1
    ensures key2 == tag + ([key2[|tag|]] + key2[|tag| + 1..])
  {
  }

  /** Outside the entry path a key is its own affinity key, or that of the category whose key it is. */
  lemma AffinityShape(key: string)
    ensures var a := CategoryAffinity(key);
            a == key || (a != "" && '/' !in a && KeyOf(key, a))
  {
    hide Segment, KeyOf, Under;
    if CATEGORY_PATH <= key && |key| > |CATEGORY_PATH| + 1 {
      var key2 := key[|CATEGORY_PATH|..];
      assert key == CATEGORY_PATH + key2;
      forall tag | IsTag(tag) && Under(tag, key2)
        ensures var a := Segment(tag, key2, key); a == key || ('/' !in a && KeyOf(key, a))
      {
        SegmentSlashFree(tag, key, key2);
      }
    }
  }

  lemma NoPath(a: string)
    requires '/' !in a
    ensures !(ENTRY_PATH <= a) && !(CATEGORY_PATH <= a)
  {
    assert ENTRY_PATH[0] == '/' && CATEGORY_PATH[0] == '/';
    assert a != "" ==> a[0] in a;
  }

  /**
   Exactly which keys a category attracts: the affinity key of a key is a given category if and only if it is
   a key of that category, or the name of the category itself. Under logic 1 the category named "entry" would
   share its affinity key with the entry stage.
   */
  lemma AffinityExactly(key: string, category: string)
    requires category != "" && '/' !in category
    ensures Affinity2(key) == category <==> key == category || KeyOf(key, category)
    ensures Affinity1(key) == category <==>
            key == category || KeyOf(key, category) || (category == ENTRY_AFFINITY && ENTRY_PATH <= key)
  {
    hide CategoryAffinity;
    AffinityShape(key);
    NoPath(category);
    OwnAffinity(category);
    if KeyOf(key, category) {
      var tag, c, rest :| IsTag(tag) && key == CATEGORY_PATH + tag + [c] + category + "/" + rest;
      CategoryKeyAffinity(tag, c, category, rest);
    }
  }

  lemma OwnAffinity(key: string)
    requires !(CATEGORY_PATH <= key)
    ensures CategoryAffinity(key) == key
  {
  }

  /** Both logics map an affinity key to itself, and no key to the empty key. */
  lemma AffinityIdempotent(key: string)
    ensures Affinity1(Affinity1(key)) == Affinity1(key)
    ensures Affinity2(Affinity2(key)) == Affinity2(key)
    ensures key != "" ==> Affinity1(key) != "" && Affinity2(key) != ""
    ensures !(ENTRY_PATH <= key) ==> Affinity1(key) == Affinity2(key)
  {
    hide KeyOf;
    AffinityShape(key);
    var a := CategoryAffinity(key);
    if a != key {
      NoPath(a);
    }
    NoPath(ENTRY_AFFINITY);
  }

  /**
   Co-location across the pipeline: the rewritten request, every part of the data of its category and the
   output have the same affinity key, under both logics, and other categories have another one.
   */
  lemma CoLocation(client: nat, object_: nat, category: nat, i: int, other: nat)
    ensures var id := ObjectId(client, object_);
            && Affinity1(NewKey(category, id)) == Affinity1(OutputKey(category, id))
               == Affinity1(Name(DataPart(Decimal(category), i))) == Decimal(category)
            && Affinity2(NewKey(category, id)) == Affinity2(OutputKey(category, id))
               == Affinity2(Name(DataPart(Decimal(category), i))) == Decimal(category)
            && (Affinity1(NewKey(other, id)) == Affinity1(NewKey(category, id)) <==> other == category)
            && (Affinity2(NewKey(other, id)) == Affinity2(NewKey(category, id)) <==> other == category)
  {
    hide Decimal, CategoryAffinity, ObjectId, ToString;
    var id := ObjectId(client, object_);
    DecimalHas(category, '/');
    DecimalHas(other, '/');
    CategoryKeyAffinity(NEW_KEY, '/', Decimal(category), id);
    CategoryKeyAffinity(OUTPUT_KEY, '/', Decimal(category), id);
    CategoryKeyAffinity(DATA_KEY, '/', Decimal(category), ToString(i));
    CategoryKeyAffinity(NEW_KEY, '/', Decimal(other), id);
    assert NewKey(category, id) == CATEGORY_PATH + NEW_KEY + ['/'] + Decimal(category) + "/" + id;
    assert OutputKey(category, id) == CATEGORY_PATH + OUTPUT_KEY + ['/'] + Decimal(category) + "/" + id;
    assert Name(DataPart(Decimal(category), i)) == CATEGORY_PATH + DATA_KEY + ['/'] + Decimal(category) + "/" + ToString(i);
    assert NewKey(other, id) == CATEGORY_PATH + NEW_KEY + ['/'] + Decimal(other) + "/" + id;
    if Decimal(other) == Decimal(category) {
      DecimalInjective(other, category);
    }
  }

  /** Requests and entry data are kept together by logic 1 and left alone by logic 2. */
  lemma EntryAffinity(client: nat, object_: nat, i: int)
    ensures Affinity1(ClientKey(client, object_)) == Affinity1(Name(EntryPart(i))) == ENTRY_AFFINITY
    ensures Affinity2(ClientKey(client, object_)) == ClientKey(client, object_)
    ensures Affinity2(Name(EntryPart(i))) == Name(EntryPart(i)) != ClientKey(client, object_)
  {
    hide Decimal, ToString;
    RequestIsNotData(client, object_);
  }

  /** All that is under the entry path is one set under logic 1, and every key its own under logic 2. */
  lemma EntryPathAffinity(rest: string, other: string)
    ensures Affinity1("/entry" + rest) == Affinity1("/entry" + other)
    ensures Affinity2("/entry" + rest) == "/entry" + rest
  {
    assert ENTRY_PATH <= "/entry" + rest && ENTRY_PATH <= "/entry" + other;
  }

  /** A key that is neither under the entry path nor under the category path is left alone. */
  lemma ConfigAffinity(k: StoreKey)
    requires IsConfig(k)
    ensures Affinity1(Name(k)) == Affinity2(Name(k)) == Name(k)
    ensures '/' in Name(k)
  {
    hide Decimal, CategoryAffinity;
    ConfigNames(k);
    assert Name(k)[1] == 'c' && Name(k)[2] == 'o';
    assert ENTRY_PATH[1] == 'e' && CATEGORY_PATH[1] == 'c' && CATEGORY_PATH[2] == 'a';
    OwnAffinity(Name(k));
  }

  lemma ConfigNames(k: StoreKey)
    requires IsConfig(k)
    ensures |Name(k)| > 3 && Name(k)[0] == '/' && Name(k)[1] == 'c' && Name(k)[2] == 'o'
  {
    hide Decimal;
    assert CONFIG_PATH[0] == '/' && CONFIG_PATH[1] == 'c' && CONFIG_PATH[2] == 'o';
  }

  /**
   Under logic 1 the entry stage is a set of its own: requests and entry data are kept together, and apart from
   what belongs to any category and from the configuration.
   */
  lemma EntrySetApart(client: nat, object_: nat, i: int, category: nat, id: string, j: int, k: StoreKey)
    requires IsConfig(k)
    ensures var e := Affinity1(ClientKey(client, object_));
            && e == Affinity1(Name(EntryPart(i)))
            && e != Affinity1(NewKey(category, id)) && e != Affinity1(OutputKey(category, id))
            && e != Affinity1(Name(DataPart(Decimal(category), j))) && e != Affinity1(Name(k))
  {
    hide Decimal, CategoryAffinity, ToString;
    DecimalHas(category, '/');
    CategoryKeyAffinity(NEW_KEY, '/', Decimal(category), id);
    CategoryKeyAffinity(OUTPUT_KEY, '/', Decimal(category), id);
    CategoryKeyAffinity(DATA_KEY, '/', Decimal(category), ToString(j));
    assert NewKey(category, id) == CATEGORY_PATH + NEW_KEY + ['/'] + Decimal(category) + "/" + id;
    assert OutputKey(category, id) == CATEGORY_PATH + OUTPUT_KEY + ['/'] + Decimal(category) + "/" + id;
    assert Name(DataPart(Decimal(category), j)) == CATEGORY_PATH + DATA_KEY + ['/'] + Decimal(category) + "/" + ToString(j);
    ConfigAffinity(k);
    EntryWord();
    assert Decimal(category)[0] in Decimal(category);
  }

  /** The name of the entry set is neither a number nor a path. */
  lemma EntryWord()
    ensures ENTRY_AFFINITY != "" && !IsDigit(ENTRY_AFFINITY[0]) && '/' !in ENTRY_AFFINITY
  {
  }
}
