/**
 The example of the documentation: `generate_workload -w 4`, whose file is printed there in full. What the run, its
 ledger and its file are is stated here to the letter.
 */
module DocumentedRun {
  import opened Common
  import opened Workload
  import opened Machine
  import opened Invariants
  import opened Generator
  import opened Text
  import opened FileFormat
  import opened FileLoops
  import opened FileLayout
  import opened GeneratedFiles

  const FOUR := Params(4, 1, 1, 1, 1, 100000, 10, 3)

  /** The order in which the example picks the wallets. */
  const PICKS: seq<nat> := [3, 1, 0, 2]

  const FIRST := Transfer([Share(3, [Coin(3, 10)])], [Share(1, [Coin(3, 10)])])
  const SECOND := Transfer([Share(0, [Coin(0, 10)])], [Share(2, [Coin(0, 10)])])

  const COINS: map<nat, seq<Coin>> := map[0 := [Coin(0, 100000)], 1 := [Coin(1, 100000)], 2 := [Coin(2, 100000)], 3 := [Coin(3, 100000)]]

  const MINTED: Ledger := map[(0, 0) := 100000, (1, 1) := 100000, (2, 2) := 100000, (3, 3) := 100000]

  const EXPECTED: Ledger := map[(0, 0) := 99990, (1, 1) := 100000, (1, 3) := 10, (2, 0) := 10, (2, 2) := 100000, (3, 3) := 99990]

  /** The ledger after the first transfer. */
  const HALFWAY: Ledger := MINTED[(3, 3) := 99990][(1, 3) := 10]

  lemma PriceOfFour()
    ensures FOUR.Valid() && FOUR.Debit() == 10
  {
  }

  lemma NextInList(n: nat, list: seq<nat>)
    requires WalletList(FOUR, n) == list
    ensures WalletList(FOUR, n + 1) == list + [n]
  {
    assert Repeat(n, 1) == [n];
  }

  lemma PicksAreShuffled()
    ensures Shuffled(FOUR, PICKS)
  {
    hide WalletList;
    EmptyList();
    NextInList(0, []);
    NextInList(1, [0]);
    NextInList(2, [0, 1]);
    NextInList(3, [0, 1, 2]);
    assert [] + [0] == [0] && [0] + [1] == [0, 1] && [0, 1] + [2] == [0, 1, 2] && [0, 1, 2] + [3] == [0, 1, 2, 3];
    assert multiset([3, 1, 0, 2]) == multiset([0, 1, 2, 3]);
  }

  lemma EmptyList()
    ensures WalletList(FOUR, 0) == []
  {
  }

  lemma MintedFour()
    ensures Mint(FOUR) == MINTED && MintedWallets(FOUR) == COINS
  {
    hide MintedBelow;
    assert forall w | 0 <= w < 4 :: FOUR.Minted(w) == [Coin(w, 100000)];
    forall k: Key ensures (k in Mint(FOUR) <==> k in MINTED) && (k in MINTED ==> Mint(FOUR)[k] == MINTED[k]) {
      MintHolds(FOUR, k.0, k.1);
    }
  }

  /** A send of the first entry of the list, by a wallet that has not spent anything. */
  lemma FirstSends(s: State)
    requires s.status == Running && s.cursor == 0 && |s.list| >= 2 && s.partial == NO_TRANSFER
    requires s.list[0] < 4 && Held(s.ledger, (s.list[0], s.list[0])) == 100000
    ensures s.Placed()
    ensures var x := s.list[0];
            Step(FOUR, s) == State(s.list[1..], 0, s.ledger[(x, x) := 99990], s.transfers,
                                   Transfer([Share(x, [Coin(x, 10)])], []), Running)
  {
    hide Step, FirstFit, FirstFree, Params.Debit, Params.Minted;
    var x := s.list[0];
    PriceOfFour();
    NothingPicked();
    OnlyCoin(s.ledger, x);
    ScanOne(s.list, 0, {}, 0);
    SendStep(FOUR, s, 0, 0);
    assert s.list[..0] + s.list[1..] == s.list[1..] && [] + [Share(x, [Coin(x, 10)])] == [Share(x, [Coin(x, 10)])];
    NoBorrow(100000, 10);
  }

  lemma OnlyCoin(l: Ledger, x: nat)
    requires Held(l, (x, x)) == 100000
    ensures FirstFit(l, x, FOUR.Minted(x), 10, 0) == Some(0)
  {
    assert FOUR.Minted(x) == [Coin(x, 100000)];
  }

  lemma FirstReceives(s: State, sender: nat)
    requires s.status == Running && s.cursor == 0 && |s.list| >= 1 && s.list[0] != sender
    requires s.partial == Transfer([Share(sender, [Coin(sender, 10)])], [])
    requires (s.list[0], sender) !in s.ledger
    ensures s.Placed()
    ensures var x := s.list[0];
            Step(FOUR, s) == State(s.list[1..], 0, s.ledger[(x, sender) := 10], s.transfers,
                                   Transfer(s.partial.senders, [Share(x, [Coin(sender, 10)])]), Running)
  {
    hide Step, FirstFree, Payout, Inputs, CreditAll;
    var x := s.list[0];
    assert NamesOf(s.partial) == [sender];
    ScanOne(s.list, 0, Picked(s.partial), 0);
    ReceiveStep(FOUR, s, 0);
    PaidOnce(s.ledger, x, sender);
    assert s.list[..0] + s.list[1..] == s.list[1..] && [] + [Share(x, [Coin(sender, 10)])] == [Share(x, [Coin(sender, 10)])];
  }

  lemma PaidOnce(l: Ledger, x: nat, sender: nat)
    requires (x, sender) !in l
    ensures Payout(FOUR, Inputs([Share(sender, [Coin(sender, 10)])])) == [Coin(sender, 10)]
    ensures CreditAll(l, x, [Coin(sender, 10)]) == l[(x, sender) := 10]
  {
    assert Inputs([Share(sender, [Coin(sender, 10)])]) == [Coin(sender, 10)];
    assert [] + [Coin(sender, 10)] == [Coin(sender, 10)];
    CreditOne(l, x, [], Coin(sender, 10));
  }

  lemma FullIsEmitted(s: State)
    requires s.status == Running && s.Placed() && |s.partial.senders| == 1 && |s.partial.receivers| == 1
    ensures Step(FOUR, s) == s.(transfers := s.transfers + [s.partial], partial := NO_TRANSFER)
  {
  }

  lemma EmptyFinishes(s: State)
    requires s.status == Running && s.list == [] && s.cursor == 0 && s.partial == NO_TRANSFER
    ensures s.Placed() && Step(FOUR, s) == s.(status := Complete)
  {
  }

  /** A whole transfer from the first entry of the list to the second one. */
  lemma WholeTransfer(order: seq<nat>, k: nat)
    requires var s := At(FOUR, order, k);
             && s.status == Running && s.cursor == 0 && |s.list| >= 2 && s.partial == NO_TRANSFER
             && s.list[0] < 4 && Held(s.ledger, (s.list[0], s.list[0])) == 100000
             && s.list[1] != s.list[0] && (s.list[1], s.list[0]) !in s.ledger
    ensures var s := At(FOUR, order, k);
            var x, y := s.list[0], s.list[1];
            var t := Transfer([Share(x, [Coin(x, 10)])], [Share(y, [Coin(x, 10)])]);
            At(FOUR, order, k + 3) == State(s.list[2..], 0, s.ledger[(x, x) := 99990][(y, x) := 10],
                                            s.transfers + [t], NO_TRANSFER, Running)
  {
    hide Step, At;
    var s := At(FOUR, order, k);
    NextAt(FOUR, order, k);
    NextAt(FOUR, order, k + 1);
    NextAt(FOUR, order, k + 2);
    FirstSends(s);
    FirstReceives(At(FOUR, order, k + 1), s.list[0]);
    FullIsEmitted(At(FOUR, order, k + 2));
    assert s.list[1..][1..] == s.list[2..];
  }

  lemma StartOfFour()
    ensures At(FOUR, PICKS, 0) == State(PICKS, 0, MINTED, [], NO_TRANSFER, Running)
  {
    hide Step, At, Mint;
    MintedFour();
    FirstAt(FOUR, PICKS);
  }

  lemma FirstTransfer()
    ensures At(FOUR, PICKS, 3) == State([0, 2], 0, HALFWAY, [FIRST], NO_TRANSFER, Running)
  {
    hide Step, At, Mint;
    StartOfFour();
    WholeTransfer(PICKS, 0);
    assert PICKS[2..] == [0, 2];
  }

  lemma SecondTransfer()
    ensures At(FOUR, PICKS, 6) == State([], 0, EXPECTED, [FIRST, SECOND], NO_TRANSFER, Running)
  {
    hide Step, At, Mint;
    FirstTransfer();
    WholeTransfer(PICKS, 3);
    assert HALFWAY[(0, 0) := 99990][(2, 0) := 10] == EXPECTED;
  }

  /** The run of the example, from its first pick to its end. */
  lemma RunOfFour()
    ensures Final(FOUR, PICKS) == State([], 0, EXPECTED, [FIRST, SECOND], NO_TRANSFER, Complete)
  {
    hide Step, At, Final;
    PriceOfFour();
    SecondTransfer();
    NextAt(FOUR, PICKS, 6);
    EmptyFinishes(At(FOUR, PICKS, 6));
    StoppedIsFinal(FOUR, PICKS, 7);
  }

  // ----- Its file

  lemma SmallDecimals()
    ensures Decimal(0) == "0" && Decimal(1) == "1" && Decimal(2) == "2" && Decimal(3) == "3" && Decimal(4) == "4"
    ensures Decimal(6) == "6" && Decimal(10) == "10"
  {
  }

  lemma DecimalRest()
    ensures Decimal(99990) == "99990"
  {
    assert Decimal(99) == "99" && Decimal(999) == "999" && Decimal(9999) == "9999";
  }

  lemma DecimalInitial()
    ensures Decimal(100000) == "100000"
  {
    assert Decimal(100) == "100" && Decimal(1000) == "1000" && Decimal(10000) == "10000";
  }

  lemma DecimalsOfFour()
    ensures Decimal(0) == "0" && Decimal(1) == "1" && Decimal(2) == "2" && Decimal(3) == "3" && Decimal(4) == "4"
    ensures Decimal(6) == "6" && Decimal(10) == "10" && Decimal(99990) == "99990" && Decimal(100000) == "100000"
  {
    hide Decimal;
    SmallDecimals();
    DecimalRest();
    DecimalInitial();
  }

  /** Two ascending lists of the same things are the same. */
  lemma {:induction false} AscendingUnique(xs: seq<(nat, nat)>, ys: seq<(nat, nat)>)
    requires Ascending(xs) && Ascending(ys) && forall x :: x in xs <==> x in ys
    ensures xs == ys
  {
    assert xs != [] ==> xs[0] in ys;
    assert ys != [] ==> ys[0] in xs;
    if xs != [] {
      SameFirst(xs, ys);
      forall x ensures x in xs[1..] <==> x in ys[1..] {
        RestOf(xs, x);
        RestOf(ys, x);
      }
      AscendingUnique(xs[1..], ys[1..]);
      assert xs == [xs[0]] + xs[1..] && ys == [ys[0]] + ys[1..];
    }
  }

  lemma SameFirst(xs: seq<(nat, nat)>, ys: seq<(nat, nat)>)
    requires Ascending(xs) && Ascending(ys) && xs != [] && ys != [] && xs[0] in ys && ys[0] in xs
    ensures xs[0] == ys[0]
  {
  }

  lemma RestOf(xs: seq<(nat, nat)>, x: (nat, nat))
    requires Ascending(xs) && xs != []
    ensures x in xs[1..] <==> x in xs && x != xs[0]
  {
  }

  const LINES: seq<string> := [
    "4 1 1 1 1 100000 10 3 2 6",
    "0 0 100000",
    "1 1 100000",
    "2 2 100000",
    "3 3 100000",
    "3 1 3 10 1 1 3 10 ",
    "0 1 0 10 2 1 0 10 ",
    "0 0 99990",
    "1 1 100000",
    "1 3 10",
    "2 0 10",
    "2 2 100000",
    "3 3 99990"
  ]

  const FILE := Contents(FOUR, COINS, [FIRST, SECOND], EXPECTED)

  const POSITIONS: seq<Key> := [(0, 0), (1, 1), (1, 3), (2, 0), (2, 2), (3, 3)]

  lemma PositionsAscend()
    ensures Ascending(POSITIONS)
  {
  }

  lemma PositionsExpected(x: Key)
    ensures x in POSITIONS <==> x in EXPECTED.Keys
  {
    var m := EXPECTED;
    assert x in m <==> x == (0, 0) || x == (1, 1) || x == (1, 3) || x == (2, 0) || x == (2, 2) || x == (3, 3);
  }

  lemma LedgerKeysOfFour()
    ensures SortedKeys(EXPECTED.Keys) == POSITIONS
  {
    hide SortedKeys, POSITIONS, EXPECTED;
    PositionsAscend();
    forall x ensures x in SortedKeys(EXPECTED.Keys) <==> x in POSITIONS {
      PositionsExpected(x);
    }
    AscendingUnique(SortedKeys(EXPECTED.Keys), POSITIONS);
  }

  lemma WalletsOfFour()
    ensures Sorted(COINS.Keys) == [0, 1, 2, 3]
  {
    hide Sorted;
    var keys := Sorted(COINS.Keys);
    Ascend(keys, 4);
  }

  /** An ascending list of the numbers below `n`. */
  lemma {:induction false} Ascend(xs: seq<nat>, n: nat)
    requires forall i, j | 0 <= i < j < |xs| :: xs[i] < xs[j]
    requires forall x: nat :: x in xs <==> x < n
    ensures |xs| == n && forall i: nat | i < n :: xs[i] == i
  {
    assert xs != [] ==> xs[0] in xs;
    if n > 0 {
      assert n - 1 in xs;
      var m := |xs| - 1;
      assert xs[m] in xs;
      var i :| 0 <= i < |xs| && xs[i] == n - 1;
      assert i == m;
      var front := xs[..m];
      forall x: nat ensures x in front <==> x < n - 1 {
        if x < n - 1 {
          assert x in xs;
        }
        if x in front {
          var j :| 0 <= j < m && front[j] == x;
          assert xs[j] < xs[m];
        }
      }
      Ascend(front, n - 1);
    }
  }

  // The lines as numbers

  lemma WalletRowsOfFour()
    ensures WalletRows([0, 1, 2, 3], COINS) ==
            [Row(0, Coin(0, 100000)), Row(1, Coin(1, 100000)), Row(2, Coin(2, 100000)), Row(3, Coin(3, 100000))]
  {
    assert CoinRows(0, [Coin(0, 100000)]) == [Row(0, Coin(0, 100000))];
    assert CoinRows(1, [Coin(1, 100000)]) == [Row(1, Coin(1, 100000))];
    assert CoinRows(2, [Coin(2, 100000)]) == [Row(2, Coin(2, 100000))];
    assert CoinRows(3, [Coin(3, 100000)]) == [Row(3, Coin(3, 100000))];
    assert WalletRows([3], COINS) == [Row(3, Coin(3, 100000))];
    assert WalletRows([2, 3], COINS) == [Row(2, Coin(2, 100000)), Row(3, Coin(3, 100000))];
    assert WalletRows([1, 2, 3], COINS) == [Row(1, Coin(1, 100000)), Row(2, Coin(2, 100000)), Row(3, Coin(3, 100000))];
  }

  lemma LedgerRowsOfFour()
    ensures LedgerRows(POSITIONS, EXPECTED) ==
            [Row(0, Coin(0, 99990)), Row(1, Coin(1, 100000)), Row(1, Coin(3, 10)),
             Row(2, Coin(0, 10)), Row(2, Coin(2, 100000)), Row(3, Coin(3, 99990))]
  {
  }

  lemma NumbersOfTransfer(x: nat, y: nat)
    ensures TransferLine(Transfer([Share(x, [Coin(x, 10)])], [Share(y, [Coin(x, 10)])])) == Blanked([x, 1, x, 10, y, 1, x, 10])
  {
    hide Blanked;
    assert CoinNumbers([Coin(x, 10)]) == [x, 10];
    assert ShareNumbers([Share(x, [Coin(x, 10)])]) == [x, 1, x, 10];
    assert ShareNumbers([Share(y, [Coin(x, 10)])]) == [y, 1, x, 10];
    assert [x, 1, x, 10] + [y, 1, x, 10] == [x, 1, x, 10, y, 1, x, 10];
  }

  lemma HeaderOfFour()
    ensures HeaderNumbers(FOUR, 2, 6) == [4, 1, 1, 1, 1, 100000, 10, 3, 2, 6]
  {
  }

  lemma WalletLinesOfFour()
    ensures Each(WalletRows(Sorted(COINS.Keys), COINS), RowLine) ==
            [Words([0, 0, 100000]), Words([1, 1, 100000]), Words([2, 2, 100000]), Words([3, 3, 100000])]
  {
    hide Words, WalletRows, Sorted, COINS;
    WalletsOfFour();
    WalletRowsOfFour();
    FourLines(WalletRows([0, 1, 2, 3], COINS));
  }

  lemma LineOfRow(w: nat, id: nat, v: nat)
    ensures RowLine(Row(w, Coin(id, v))) == Words([w, id, v])
  {
    hide Words;
  }

  lemma FourLines(rows: seq<Row>)
    requires rows ==
             [Row(0, Coin(0, 100000)), Row(1, Coin(1, 100000)), Row(2, Coin(2, 100000)), Row(3, Coin(3, 100000))]
    ensures Each(rows, RowLine) ==
            [Words([0, 0, 100000]), Words([1, 1, 100000]), Words([2, 2, 100000]), Words([3, 3, 100000])]
  {
    hide Words, RowLine;
    LineOfRow(0, 0, 100000);
    LineOfRow(1, 1, 100000);
    LineOfRow(2, 2, 100000);
    LineOfRow(3, 3, 100000);
  }

  lemma SixLines(rows: seq<Row>)
    requires rows ==
             [Row(0, Coin(0, 99990)), Row(1, Coin(1, 100000)), Row(1, Coin(3, 10)),
              Row(2, Coin(0, 10)), Row(2, Coin(2, 100000)), Row(3, Coin(3, 99990))]
    ensures Each(rows, RowLine) ==
            [Words([0, 0, 99990]), Words([1, 1, 100000]), Words([1, 3, 10]),
             Words([2, 0, 10]), Words([2, 2, 100000]), Words([3, 3, 99990])]
  {
    hide Words, RowLine;
    LineOfRow(0, 0, 99990);
    LineOfRow(1, 1, 100000);
    LineOfRow(1, 3, 10);
    LineOfRow(2, 0, 10);
    LineOfRow(2, 2, 100000);
    LineOfRow(3, 3, 99990);
  }

  lemma TransferLinesOfFour()
    ensures Each([FIRST, SECOND], TransferLine) == [Blanked([3, 1, 3, 10, 1, 1, 3, 10]), Blanked([0, 1, 0, 10, 2, 1, 0, 10])]
  {
    hide Blanked, TransferLine;
    NumbersOfTransfer(3, 1);
    NumbersOfTransfer(0, 2);
  }

  lemma LedgerLinesOfFour()
    ensures |EXPECTED| == 6
    ensures Each(LedgerRows(SortedKeys(EXPECTED.Keys), EXPECTED), RowLine) ==
            [Words([0, 0, 99990]), Words([1, 1, 100000]), Words([1, 3, 10]),
             Words([2, 0, 10]), Words([2, 2, 100000]), Words([3, 3, 99990])]
  {
    hide Words, LedgerRows, SortedKeys, EXPECTED, POSITIONS;
    LedgerKeysOfFour();
    LedgerRowsOfFour();
    SixPositions();
    SixLines(LedgerRows(POSITIONS, EXPECTED));
  }

  lemma SixPositions()
    ensures |POSITIONS| == 6 && |EXPECTED| == |EXPECTED.Keys|
  {
  }

  lemma LinesAsNumbers()
    ensures FileLines(FILE) ==
            [Words([4, 1, 1, 1, 1, 100000, 10, 3, 2, 6])]
            + [Words([0, 0, 100000]), Words([1, 1, 100000]), Words([2, 2, 100000]), Words([3, 3, 100000])]
            + [Blanked([3, 1, 3, 10, 1, 1, 3, 10]), Blanked([0, 1, 0, 10, 2, 1, 0, 10])]
            + [Words([0, 0, 99990]), Words([1, 1, 100000]), Words([1, 3, 10]),
               Words([2, 0, 10]), Words([2, 2, 100000]), Words([3, 3, 99990])]
  {
    hide Words, Blanked, Each, HeaderNumbers, TransferLine, RowLine, WalletRows, LedgerRows, Sorted, SortedKeys;
    hide EXPECTED, COINS, FIRST, SECOND, FOUR;
    HeaderOfFour();
    WalletLinesOfFour();
    TransferLinesOfFour();
    LedgerLinesOfFour();
  }

  // The lines as text

  lemma ThreeWords(a: nat, b: nat, c: nat)
    ensures Words([a, b, c]) == Decimal(a) + " " + (Decimal(b) + " " + Decimal(c))
  {
    hide Decimal, Words;
    WordsOne(c);
    WordsNext(b, [c]);
    WordsNext(a, [b, c]);
    assert [b] + [c] == [b, c] && [a] + [b, c] == [a, b, c];
  }

  lemma EightNumbers(x: nat, y: nat)
    ensures Blanked([x, 1, x, 10, y, 1, x, 10]) ==
            Decimal(x) + " " + Decimal(1) + " " + (Decimal(x) + " " + Decimal(10) + " "
            + (Decimal(y) + " " + Decimal(1) + " " + (Decimal(x) + " " + Decimal(10) + " ")))
  {
    hide Decimal, Blanked;
    assert [x, 1, x, 10, y, 1, x, 10] == [x, 1] + ([x, 10] + ([y, 1] + ([x, 10] + [])));
    BlankedPair(x, 1, [x, 10] + ([y, 1] + ([x, 10] + [])));
    BlankedPair(x, 10, [y, 1] + ([x, 10] + []));
    BlankedPair(y, 1, [x, 10] + []);
    BlankedPair(x, 10, []);
    NothingBlanked();
  }

  lemma WalletLineTexts()
    ensures Words([0, 0, 100000]) == "0 0 100000"
    ensures Words([1, 1, 100000]) == "1 1 100000"
    ensures Words([2, 2, 100000]) == "2 2 100000"
    ensures Words([3, 3, 100000]) == "3 3 100000"
  {
    hide Decimal, Words;
    DecimalsOfFour();
    ThreeWords(0, 0, 100000);
    ThreeWords(1, 1, 100000);
    ThreeWords(2, 2, 100000);
    ThreeWords(3, 3, 100000);
  }

  lemma SenderLineTexts()
    ensures Words([0, 0, 99990]) == "0 0 99990"
    ensures Words([3, 3, 99990]) == "3 3 99990"
  {
    hide Decimal, Words;
    DecimalsOfFour();
    ThreeWords(0, 0, 99990);
    ThreeWords(3, 3, 99990);
  }

  lemma ReceiverLineTexts()
    ensures Words([1, 3, 10]) == "1 3 10"
    ensures Words([2, 0, 10]) == "2 0 10"
  {
    hide Decimal, Words;
    DecimalsOfFour();
    ThreeWords(1, 3, 10);
    ThreeWords(2, 0, 10);
  }

  lemma FirstLineText()
    ensures Blanked([3, 1, 3, 10, 1, 1, 3, 10]) == "3 1 3 10 1 1 3 10 "
  {
    hide Decimal, Blanked;
    DecimalsOfFour();
    EightNumbers(3, 1);
    assert "3" + " " + "1" + " " + ("3" + " " + "10" + " " + ("1" + " " + "1" + " " + ("3" + " " + "10" + " "))) == "3 1 3 10 1 1 3 10 ";
  }

  lemma SecondLineText()
    ensures Blanked([0, 1, 0, 10, 2, 1, 0, 10]) == "0 1 0 10 2 1 0 10 "
  {
    hide Decimal, Blanked;
    DecimalsOfFour();
    EightNumbers(0, 2);
    assert "0" + " " + "1" + " " + ("0" + " " + "10" + " " + ("2" + " " + "1" + " " + ("0" + " " + "10" + " "))) == "0 1 0 10 2 1 0 10 ";
  }

  lemma HeaderTail()
    ensures Words([100000, 10, 3, 2, 6]) == "100000 10 3 2 6"
  {
    hide Decimal, Words;
    DecimalsOfFour();
    ThreeWords(3, 2, 6);
    WordsNext(10, [3, 2, 6]);
    WordsNext(100000, [10, 3, 2, 6]);
    assert [10] + [3, 2, 6] == [10, 3, 2, 6] && [100000] + [10, 3, 2, 6] == [100000, 10, 3, 2, 6];
    assert "3" + " " + ("2" + " " + "6") == "3 2 6";
    assert "10" + " " + "3 2 6" == "10 3 2 6";
    assert "100000" + " " + "10 3 2 6" == "100000 10 3 2 6";
  }

  lemma OneMore(ns: seq<nat>, text: string)
    requires ns != [] && Words(ns) == text
    ensures Words([1] + ns) == "1 " + text
  {
    hide Decimal, Words;
    DecimalsOfFour();
    WordsNext(1, ns);
    assert "1" + " " == "1 ";
  }

  lemma HeaderOnes(ns: seq<nat>, text: string)
    requires ns != [] && Words(ns) == text
    ensures Words([4, 1, 1, 1, 1] + ns) == "4 1 1 1 1 " + text
  {
    hide Decimal, Words;
    OneMore(ns, text);
    OneMore([1] + ns, "1 " + text);
    OneMore([1] + ([1] + ns), "1 " + ("1 " + text));
    OneMore([1] + ([1] + ([1] + ns)), "1 " + ("1 " + ("1 " + text)));
    WordsNext(4, [1] + ([1] + ([1] + ([1] + ns))));
    DecimalFour();
    assert [4] + ([1] + ([1] + ([1] + ([1] + ns)))) == [4, 1, 1, 1, 1] + ns;
    assert "4" + " " + ("1 " + ("1 " + ("1 " + ("1 " + text)))) == "4 1 1 1 1 " + text;
  }

  lemma DecimalFour()
    ensures Decimal(4) == "4"
  {
  }

  lemma HeaderLineText()
    ensures Words([4, 1, 1, 1, 1, 100000, 10, 3, 2, 6]) == "4 1 1 1 1 100000 10 3 2 6"
  {
    hide Words;
    HeaderTail();
    HeaderOnes([100000, 10, 3, 2, 6], "100000 10 3 2 6");
    assert [4, 1, 1, 1, 1] + [100000, 10, 3, 2, 6] == [4, 1, 1, 1, 1, 100000, 10, 3, 2, 6];
  }

  lemma LinesAsText()
    ensures FileLines(FILE) == LINES
  {
    hide FileLines, Words, Blanked;
    LinesAsNumbers();
    HeaderLineText();
    WalletLineTexts();
    FirstLineText();
    SecondLineText();
    SenderLineTexts();
    ReceiverLineTexts();
  }

  /**
   The documented run. With four wallets and the default options, the shuffle that puts the wallets in the order
   3, 1, 0, 2 leads to the two transfers, the ledger and the file of the documentation.
   */
  lemma DocumentedFile()
    ensures FOUR.Valid() && Shuffled(FOUR, PICKS) && Final(FOUR, PICKS).status == Complete
    ensures Generated(FOUR, PICKS) == Contents(FOUR, COINS, [FIRST, SECOND], EXPECTED)
    ensures FileText(Generated(FOUR, PICKS)) == Unlines(LINES)
  {
    hide Step, Final, Mint, FileLines, FileText, Unlines, LINES;
    PicksAreShuffled();
    PriceOfFour();
    MintedFour();
    RunOfFour();
    TextIsLines(FILE);
    LinesAsText();
  }
}
