/**
 * Playing cards (blackjack/models/card.py): the suit and rank tables, the ace and
 * face-card tests, and the strategy-table spelling of a card. A card never changes
 * after it is made, so it is a datatype value.
 */
module Cards {
  import opened Wrappers
  import opened PyText

  /** The value field of a card: one point count, or the two counts RANKS lists for the Ace. */
  datatype RankValue = Points(n: int) | Dual(low: int, high: int)

  datatype Card = Card(suit: string, name: string, value: RankValue)

  const SUITS: seq<string> := ["Spades", "Hearts", "Clubs", "Diamonds"]

  const RANKS: seq<(string, RankValue)> := [
    ("Ace", Dual(1, 11)),
    ("2", Points(2)),
    ("3", Points(3)),
    ("4", Points(4)),
    ("5", Points(5)),
    ("6", Points(6)),
    ("7", Points(7)),
    ("8", Points(8)),
    ("9", Points(9)),
    ("10", Points(10)),
    ("Jack", Points(10)),
    ("Queen", Points(10)),
    ("King", Points(10))
  ]

  predicate IsAce(c: Card) {
    c.name == "Ace"
  }

  /** A "face card" is any card whose value is exactly 10; the Ace's pair of values never is. */
  predicate IsFaceCard(c: Card) {
    c.value == Points(10)
  }

  /** The spelling of a card in the strategy tables: "A" for an ace, else `str(value)`. */
  function CsvFormat(c: Card): (r: string)
    ensures r == "A" <==> IsAce(c)
    ensures !IsAce(c) && c.value.Points? ==> ParseIntLiteral(r) == Some(c.value.n)
  {
    if IsAce(c) then "A"
    else
      match c.value
      case Points(n) =>
        ParseIntToString(n);
        IntToString(n)
      case Dual(low, high) => "[" + IntToString(low) + ", " + IntToString(high) + "]"
  }

  /** The value get_card_input gives a rank it looked up: the higher count for the Ace. */
  function HighValue(v: RankValue): int {
    match v
    case Points(n) => n
    case Dual(_, high) => high
  }

  /** The first entry of `table` from position `i` on that is named `name`. */
  function LookupFrom(table: seq<(string, RankValue)>, name: string, i: nat): Option<RankValue>
    decreases |table| - i
  {
    if i >= |table| then None
    else if table[i].0 == name then Some(table[i].1)
    else LookupFrom(table, name, i + 1)
  }

  /** The first entry of `table` named `name` (a generator `next(...)` over RANKS). */
  function Lookup(table: seq<(string, RankValue)>, name: string): Option<RankValue> {
    LookupFrom(table, name, 0)
  }

  /** From position `i` on, LookupFrom finds nothing exactly when no entry has the name, and otherwise the first one that has it. */
  lemma {:induction false} LookupFromFirst(table: seq<(string, RankValue)>, name: string, i: nat)
    requires i <= |table|
    ensures LookupFrom(table, name, i).None? <==> forall k :: i <= k < |table| ==> table[k].0 != name
    ensures LookupFrom(table, name, i).Some? ==>
              exists k :: i <= k < |table| && table[k] == (name, LookupFrom(table, name, i).value)
                          && forall j :: i <= j < k ==> table[j].0 != name
    decreases |table| - i
  {
    if i < |table| && table[i].0 != name {
      LookupFromFirst(table, name, i + 1);
    }
  }

  /** Lookup finds nothing exactly when no entry has the name, and otherwise the first entry that has it. */
  lemma LookupFirst(table: seq<(string, RankValue)>, name: string)
    ensures Lookup(table, name).None? <==> forall k :: 0 <= k < |table| ==> table[k].0 != name
    ensures Lookup(table, name).Some? ==>
              exists k :: 0 <= k < |table| && table[k] == (name, Lookup(table, name).value)
                          && forall j :: 0 <= j < k ==> table[j].0 != name
  {
    LookupFromFirst(table, name, 0);
  }

  function RankLookup(name: string): Option<RankValue> {
    Lookup(RANKS, name)
  }

  /** The rank table: 13 ranks, the Ace worth 1 or 11, the pips their number, the court cards 10. */
  lemma RanksTable()
    ensures |RANKS| == 13 && |SUITS| == 4
    ensures RANKS[0] == ("Ace", Dual(1, 11))
    ensures forall k :: 1 <= k <= 9 ==> RANKS[k] == (IntToString(k + 1), Points(k + 1))
    ensures RANKS[10] == ("Jack", Points(10)) && RANKS[11] == ("Queen", Points(10))
    ensures RANKS[12] == ("King", Points(10))
  {
    assert NatToString(10) == NatToString(1) + ['0'];
    forall k | 1 <= k <= 9
      ensures RANKS[k] == (IntToString(k + 1), Points(k + 1))
    {
      if k == 9 {
        assert IntToString(10) == "10";
      }
    }
  }

  /** No two ranks, and no two suits, share a name. */
  lemma NamesDistinct()
    ensures forall i, j :: 0 <= i < j < |RANKS| ==> RANKS[i].0 != RANKS[j].0
    ensures forall i, j :: 0 <= i < j < |SUITS| ==> SUITS[i] != SUITS[j]
  {
  }

  /** The ranks that count as face cards are exactly "10", Jack, Queen and King. */
  lemma FaceCardRanks(suit: string, k: nat)
    requires k < |RANKS|
    ensures IsFaceCard(Card(suit, RANKS[k].0, RANKS[k].1)) <==> 9 <= k
    ensures IsAce(Card(suit, RANKS[k].0, RANKS[k].1)) <==> k == 0
  {
  }

  /** Every rank is found under its own name, with the value RANKS pairs with it. */
  lemma RankFound(k: nat)
    requires k < |RANKS|
    ensures RankLookup(RANKS[k].0) == Some(RANKS[k].1)
  {
    NamesDistinct();
    LookupFirst(RANKS, RANKS[k].0);
    var v := RankLookup(RANKS[k].0);
    var k' :| 0 <= k' < |RANKS| && RANKS[k'] == (RANKS[k].0, v.value)
              && forall j :: 0 <= j < k' ==> RANKS[j].0 != RANKS[k].0;
    assert k' == k;
  }

  /** The blank entry names no rank. */
  lemma BlankIsNoRank()
    ensures RankLookup([]).None?
  {
    LookupFirst(RANKS, []);
  }

  /** What get_card_input makes of a rank entry it found: the Ace is worth 11, every other rank 2 to 10. */
  lemma LookedUpValue(name: string)
    requires RankLookup(name).Some?
    ensures name == "Ace" ==> HighValue(RankLookup(name).value) == 11
    ensures name != "Ace" ==> RankLookup(name).value.Points? && 2 <= HighValue(RankLookup(name).value) <= 10
  {
    var v := RankLookup(name).value;
    LookupFirst(RANKS, name);
    var k :| 0 <= k < |RANKS| && RANKS[k] == (name, v) && forall j :: 0 <= j < k ==> RANKS[j].0 != name;
    RanksTable();
    if k == 0 {
      assert v == Dual(1, 11);
    } else {
      assert RANKS[0].0 == "Ace";
      if k <= 9 {
        assert v == Points(k + 1);
      } else {
        assert v == Points(10);
      }
    }
  }
}
