/**
 The keys by which the stages of the pipeline find each other: the client prints a request key, the entry and
 category observers rewrite it, and the return observer parses what arrives.
 */
module PipelineKeys {
  import opened Common
  import opened Text

  const ENTRY_PATH := "/entry"
  const CATEGORY_PATH := "/category"
  const NEW_KEY := "/new"
  const OUTPUT_KEY := "/output"
  const DATA_KEY := "/data"

  const ENTRY_PREFIX := ENTRY_PATH + "/"
  const NEW_PREFIX := CATEGORY_PATH + NEW_KEY + "/"
  const OUTPUT_PREFIX := CATEGORY_PATH + OUTPUT_KEY + "/"
  const DATA_PREFIX := CATEGORY_PATH + DATA_KEY + "/"
  const ENTRY_DATA_PREFIX := ENTRY_PREFIX + "data"

  // ----- Library functions

  /** `std::to_string` of an `int`. */
  function ToString(i: int): string {
    if i < 0 then "-" + Decimal(-i) else Decimal(i)
  }

  /** `std::string::find` for a single character. */
  function Find(s: string, c: char): (r: Option<nat>)
    ensures r.Some? ==> r.value < |s| && s[r.value] == c && c !in s[..r.value]
    ensures r.None? ==> c !in s
  {
    if s == "" then None
    else if s[0] == c then Some(0)
    else
      match Find(s[1..], c)
      case None => None
      case Some(i) => assert s[..i + 1] == [s[0]] + s[1..][..i]; Some(i + 1)
  }

  /** `s.substr(0, pos)`, where no position means all of `s`. */
  function Before(s: string, c: char): string {
    match Find(s, c) case None => s case Some(i) => s[..i]
  }

  /** `s.substr(pos + 1)`, where no position wraps around to all of `s`. */
  function After(s: string, c: char): string {
    match Find(s, c) case None => s case Some(i) => s[i + 1..]
  }

  /** `std::stoi`; no value stands for an exception. */
  function StoI(s: string): Option<int> {
    var t := SkipSpace(s);
    var negative := t != "" && t[0] == '-';
    var digits := if t != "" && (t[0] == '-' || t[0] == '+') then t[1..] else t;
    if digits == "" || !IsDigit(digits[0]) then None
    else
      var n: int := ReadDigits(digits, 0).0;
      var v := if negative then -n else n;
      if -TWO_31 <= v < TWO_31 then Some(v) else None
  }

  lemma {:induction false} FindFirst(s: string, c: char, t: string)
    requires c !in s
    ensures Find(s + [c] + t, c) == Some(|s|)
    ensures Before(s + [c] + t, c) == s && After(s + [c] + t, c) == t
  {
    var all := s + [c] + t;
    if s != "" {
      FindFirst(s[1..], c, t);
      assert all[1..] == s[1..] + [c] + t;
    }
  }

  /** A text is cut at the first separator; without one, both parts are the whole text. */
  lemma CutAtFirst(s: string, c: char)
    ensures c in s ==> s == Before(s, c) + [c] + After(s, c) && c !in Before(s, c)
    ensures c !in s ==> Before(s, c) == s && After(s, c) == s
  {
  }

  lemma {:induction false} SpacesSkipped(space: string, rest: string)
    requires (forall c | c in space :: IsSpace(c)) && (rest == "" || !IsSpace(rest[0]))
    ensures SkipSpace(space + rest) == rest
  {
    if space == "" {
      assert space + rest == rest;
    } else {
      SpacesSkipped(space[1..], rest);
      assert (space + rest)[1..] == space[1..] + rest;
    }
  }

  /** What `std::stoi` makes of an integer: white space, a sign, digits, and something that is not looked at. */
  lemma StoIReads(space: string, sign: string, digits: string, rest: string)
    requires (forall c | c in space :: c as int in {9, 10, 11, 12, 13, 32}) && (sign == "" || sign == "+" || sign == "-")
    requires digits != "" && Digits(digits)
    requires rest == "" || !('0' <= rest[0] <= '9')
    ensures var n: int := NumberOf(digits);
            var v := if sign == "-" then -n else n;
            StoI(space + sign + digits + rest) == if -0x8000_0000 <= v < 0x8000_0000 then Some(v) else None
  {
    hide NumberOf;
    var tail := sign + (digits + rest);
    assert space + sign + digits + rest == space + tail;
    assert (digits + rest)[0] == digits[0];
    assert tail[0] == if sign == "" then digits[0] else sign[0];
    SpacesSkipped(space, tail);
    assert (if sign == "" then tail else tail[1..]) == digits + rest;
    DigitsRead(digits, rest);
  }

  lemma {:induction false} SpacesSplit(s: string) returns (space: string)
    ensures s == space + SkipSpace(s) && forall c | c in space :: IsSpace(c)
  {
    if s != "" && IsSpace(s[0]) {
      var front := SpacesSplit(s[1..]);
      space := [s[0]] + front;
      assert s == [s[0]] + s[1..];
    } else {
      space := "";
      assert s == "" + SkipSpace(s);
    }
  }

  lemma {:induction false} DigitsSplit(s: string) returns (digits: string, rest: string)
    ensures s == digits + rest && Digits(digits) && (rest == "" || !('0' <= rest[0] <= '9'))
  {
    if s != "" && IsDigit(s[0]) {
      digits, rest := DigitsSplit(s[1..]);
      digits := [s[0]] + digits;
      assert s == [s[0]] + s[1..];
    } else {
      digits, rest := "", s;
      assert s == "" + s;
    }
  }

  /** What an integer looks like to `std::stoi`: these are the texts that `StoIReads` is about. */
  ghost predicate IntText(s: string) {
    exists space, sign, digits, rest ::
      && s == space + sign + digits + rest && (forall c | c in space :: c as int in {9, 10, 11, 12, 13, 32})
      && (sign == "" || sign == "+" || sign == "-") && digits != "" && Digits(digits)
      && (rest == "" || !('0' <= rest[0] <= '9'))
  }

  lemma IsIntText(space: string, sign: string, digits: string, rest: string)
    requires forall c | c in space :: IsSpace(c)
    requires (sign == "" || sign == "+" || sign == "-") && digits != "" && Digits(digits)
    requires rest == "" || !('0' <= rest[0] <= '9')
    ensures IntText(space + sign + digits + rest)
  {
  }

  lemma NoDigits(rest: string)
    ensures "" + rest == rest
  {
  }

  lemma SignBeforeDigits(s: string) returns (sign: string, tail: string)
    requires StoI(s).Some?
    ensures SkipSpace(s) == sign + tail && (sign == "" || sign == "+" || sign == "-")
    ensures tail != "" && IsDigit(tail[0])
  {
    hide SkipSpace, ReadDigits;
    var t := SkipSpace(s);
    if t[0] == '-' || t[0] == '+' {
      sign, tail := [t[0]], t[1..];
    } else {
      sign, tail := "", t;
    }
  }

  /** Everything else makes `std::stoi` throw. */
  lemma StoIThrows(s: string)
    ensures StoI(s).Some? ==> IntText(s)
  {
    hide StoI, SkipSpace, ReadDigits, IntText, Digits;
    if StoI(s).Some? {
      var space := SpacesSplit(s);
      var sign, tail := SignBeforeDigits(s);
      var digits, rest := DigitsSplit(tail);
      NoDigits(rest);
      IsIntText(space, sign, digits, rest);
      Assoc(space, sign, digits + rest);
      Assoc(space + sign, digits, rest);
    }
  }

  /** Printing with `std::to_string` and parsing with `std::stoi` is the identity on `int`. */
  lemma IntRoundTrip(i: int)
    ensures StoI(ToString(i)) == if -0x8000_0000 <= i < 0x8000_0000 then Some(i) else None
  {
    hide Decimal, StoI, NumberOf;
    var n: nat := if i < 0 then -i else i;
    var sign := if i < 0 then "-" else "";
    DecimalNumber(n);
    StoIReads("", sign, Decimal(n), "");
    assert "" + sign + Decimal(n) + "" == ToString(i);
  }

  lemma DecimalNumber(n: nat)
    ensures Digits(Decimal(n)) && NumberOf(Decimal(n)) == n
  {
    assert forall i | 0 <= i < |Decimal(n)| :: Decimal(n)[i] in Decimal(n);
    assert Decimal(n) + "" == Decimal(n);
    ReadDecimal(n, "");
    DigitsRead(Decimal(n), "");
  }

  lemma DecimalHas(n: nat, c: char)
    requires !IsDigit(c)
    ensures c !in Decimal(n)
  {
  }

  /** A printed number is parsed back if it is in the range of `int`, and raises an exception otherwise. */
  lemma StoIDecimal(n: nat)
    ensures StoI(Decimal(n)) == if n < TWO_31 then Some(n) else None
  {
    var s := Decimal(n);
    assert s[0] in s;
    assert s + "" == s;
    ReadDecimal(n, "");
  }

  // ----- The stages

  function ClientKey(client: nat, object_: nat): string {
    ENTRY_PREFIX + Decimal(client) + "_" + Decimal(object_)
  }

  /** What the entry observer puts for a key; it ignores its own data. */
  function EntryRewrite(key: string, prefixLength: nat, category: nat): Option<string>
    requires prefixLength <= |key|
  {
    if ENTRY_DATA_PREFIX <= key then None
    else Some(NEW_PREFIX + Decimal(category) + "/" + key[prefixLength..])
  }

  /** What the category observer puts for a key. */
  function CategoryRewrite(key: string, prefixLength: nat): string
    requires prefixLength <= |key|
  {
    var values := key[prefixLength..];
    OUTPUT_PREFIX + Before(values, '/') + "/" + After(values, '/')
  }

  datatype Returned = Returned(category: int, object_: int, client: int)

  /** What the return observer reads off a key; no value stands for an exception. */
  function ReturnParse(key: string, prefixLength: nat): Option<Returned>
    requires prefixLength <= |key|
  {
    var values := key[prefixLength..];
    var objectId := After(values, '/');
    match (StoI(Before(values, '/')), StoI(After(objectId, '_')), StoI(Before(objectId, '_')))
    case (Some(category), Some(object_), Some(client)) => Some(Returned(category, object_, client))
    case _ => None
  }

  // ----- Across the stages

  function ObjectId(client: nat, object_: nat): string {
    Decimal(client) + "_" + Decimal(object_)
  }

  function NewKey(category: nat, objectId: string): string {
    NEW_PREFIX + Decimal(category) + "/" + objectId
  }

  function OutputKey(category: nat, objectId: string): string {
    OUTPUT_PREFIX + Decimal(category) + "/" + objectId
  }

  /** No request is mistaken for data of the entry stage: after the slash comes a digit. */
  lemma RequestIsNotData(client: nat, object_: nat)
    ensures !(ENTRY_DATA_PREFIX <= ClientKey(client, object_))
  {
    hide Decimal;
    var key := ClientKey(client, object_);
    assert key[7] == Decimal(client)[0];
    assert Decimal(client)[0] in Decimal(client);
    assert ENTRY_DATA_PREFIX[7] == 'd';
  }

  /** Exactly which objects the entry observer ignores. */
  lemma EntryIgnores(key: string, prefixLength: nat, category: nat)
    requires prefixLength <= |key|
    ensures EntryRewrite(key, prefixLength, category) == None <==> exists rest :: key == "/entry/data" + rest
  {
    if ENTRY_DATA_PREFIX <= key {
      assert key == "/entry/data" + key[|ENTRY_DATA_PREFIX|..];
    }
  }

  /** How the keys of the stages read, to the letter. */
  lemma KeysSpelled(client: nat, object_: nat, category: nat, id: string)
    ensures ClientKey(client, object_) == "/entry/" + ObjectId(client, object_)
    ensures ObjectId(client, object_) == Decimal(client) + "_" + Decimal(object_)
    ensures NewKey(category, id) == "/category/new/" + Decimal(category) + "/" + id
    ensures OutputKey(category, id) == "/category/output/" + Decimal(category) + "/" + id
    ensures ClientKey(3, 14) == "/entry/3_14"
    ensures NewKey(7, "3_14") == "/category/new/7/3_14" && OutputKey(7, "3_14") == "/category/output/7/3_14"
  {
    assert Decimal(3) == "3" && Decimal(7) == "7" && Decimal(14) == "14";
    assert ENTRY_PREFIX == "/entry/" && NEW_PREFIX == "/category/new/" && OUTPUT_PREFIX == "/category/output/";
  }

  lemma EntryStage(client: nat, object_: nat, category: nat)
    ensures EntryRewrite(ClientKey(client, object_), |ENTRY_PREFIX|, category)
         == Some(NewKey(category, ObjectId(client, object_)))
  {
    hide Decimal;
    RequestIsNotData(client, object_);
    assert ClientKey(client, object_) == ENTRY_PREFIX + ObjectId(client, object_);
  }

  lemma CategoryStage(category: nat, objectId: string)
    ensures CategoryRewrite(NewKey(category, objectId), |NEW_PREFIX|) == OutputKey(category, objectId)
  {
    hide Decimal;
    var values := NewKey(category, objectId)[|NEW_PREFIX|..];
    assert values == Decimal(category) + ['/'] + objectId;
    DecimalHas(category, '/');
    FindFirst(Decimal(category), '/', objectId);
  }

  lemma ReturnStage(client: nat, object_: nat, category: nat)
    ensures ReturnParse(OutputKey(category, ObjectId(client, object_)), |OUTPUT_PREFIX|) ==
            if category < TWO_31 && object_ < TWO_31 && client < TWO_31
            then Some(Returned(category, object_, client)) else None
  {
    hide Decimal, StoI;
    var objectId := ObjectId(client, object_);
    var values := OutputKey(category, objectId)[|OUTPUT_PREFIX|..];
    assert values == Decimal(category) + ['/'] + objectId;
    DecimalHas(category, '/');
    FindFirst(Decimal(category), '/', objectId);
    assert objectId == Decimal(client) + ['_'] + Decimal(object_);
    DecimalHas(client, '_');
    FindFirst(Decimal(client), '_', Decimal(object_));
    StoIDecimal(category);
    StoIDecimal(object_);
    StoIDecimal(client);
  }

  /** What arrives at the client for a request that the entry stage sends to `category`. */
  function Pipeline(client: nat, object_: nat, category: nat): Option<Returned> {
    match EntryRewrite(ClientKey(client, object_), |ENTRY_PREFIX|, category)
    case None => None
    case Some(key) =>
      if |key| < |NEW_PREFIX| then None
      else
        var output := CategoryRewrite(key, |NEW_PREFIX|);
        if |output| < |OUTPUT_PREFIX| then None else ReturnParse(output, |OUTPUT_PREFIX|)
  }

  /**
   The round trip through all four stages recovers category, object and client, exactly when each of them
   is in the range of `int`. Node ids are unsigned, so a client id from 2^31 on makes the last stage throw.
   */
  lemma PipelineRoundTrip(client: nat, object_: nat, category: nat)
    ensures Pipeline(client, object_, category) == Some(Returned(category, object_, client)) <==>
            client < TWO_31 && object_ < TWO_31 && category < TWO_31
    ensures Pipeline(client, object_, category).Some? ==>
              Pipeline(client, object_, category) == Some(Returned(category, object_, client))
  {
    hide Decimal, EntryRewrite, CategoryRewrite, ReturnParse, ClientKey, ObjectId;
    EntryStage(client, object_, category);
    CategoryStage(category, ObjectId(client, object_));
    ReturnStage(client, object_, category);
  }

  /** Requests of different clients, or for different objects, have different keys, at every stage. */
  lemma KeysInjective(c1: nat, o1: nat, k1: nat, c2: nat, o2: nat, k2: nat)
    ensures ClientKey(c1, o1) == ClientKey(c2, o2) ==> c1 == c2 && o1 == o2
    ensures NewKey(k1, ObjectId(c1, o1)) == NewKey(k2, ObjectId(c2, o2)) ==> k1 == k2 && c1 == c2 && o1 == o2
    ensures OutputKey(k1, ObjectId(c1, o1)) == OutputKey(k2, ObjectId(c2, o2)) ==> k1 == k2 && c1 == c2 && o1 == o2
  {
    hide Decimal, ObjectId, Before, After;
    var x1, x2 := ObjectId(c1, o1), ObjectId(c2, o2);
    ObjectIdInjective(c1, o1, c2, o2);
    ClientKeySuffix(c1, o1);
    ClientKeySuffix(c2, o2);
    NumberedInjective(k1, x1, k2, x2);
    assert NewKey(k1, x1)[|NEW_PREFIX|..] == Decimal(k1) + "/" + x1;
    assert NewKey(k2, x2)[|NEW_PREFIX|..] == Decimal(k2) + "/" + x2;
    assert OutputKey(k1, x1)[|OUTPUT_PREFIX|..] == Decimal(k1) + "/" + x1;
    assert OutputKey(k2, x2)[|OUTPUT_PREFIX|..] == Decimal(k2) + "/" + x2;
  }

  lemma ClientKeySuffix(c: nat, o: nat)
    ensures ClientKey(c, o)[|ENTRY_PREFIX|..] == ObjectId(c, o)
  {
    hide Decimal;
  }

  lemma ObjectIdInjective(c1: nat, o1: nat, c2: nat, o2: nat)
    ensures ObjectId(c1, o1) == ObjectId(c2, o2) ==> c1 == c2 && o1 == o2
  {
    hide Decimal, Before, After;
    DecimalHas(c1, '_');
    DecimalHas(c2, '_');
    FindFirst(Decimal(c1), '_', Decimal(o1));
    FindFirst(Decimal(c2), '_', Decimal(o2));
    if ObjectId(c1, o1) == ObjectId(c2, o2) {
      DecimalInjective(c1, c2);
      DecimalInjective(o1, o2);
    }
  }

  lemma NumberedInjective(k1: nat, x1: string, k2: nat, x2: string)
    ensures Decimal(k1) + "/" + x1 == Decimal(k2) + "/" + x2 ==> k1 == k2 && x1 == x2
  {
    hide Decimal, Before, After;
    DecimalHas(k1, '/');
    DecimalHas(k2, '/');
    FindFirst(Decimal(k1), '/', x1);
    FindFirst(Decimal(k2), '/', x2);
    if Decimal(k1) + "/" + x1 == Decimal(k2) + "/" + x2 {
      DecimalInjective(k1, k2);
    }
  }
}
