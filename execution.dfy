/**
 * The simulation branch of `ExecutionManager`: an in-memory balance map
 * holding at least USDT and BTC, and one position per symbol, updated by Buy
 * and Sell signals with a 0.1% fee. Amounts are exact reals.
 */
module Execution {
  import opened Common
  import opened Signals

  /** A held position; simulated positions are always Spot and Long. */
  datatype Position = Position(
    symbol: string,
    amount: real,
    entryPrice: real,
    unrealizedPnl: real,
    marketType: string,
    side: string)

  /** The simulator's trade statistics record. */
  datatype TradeStats = TradeStats(
    totalTrades: nat,
    buyTrades: nat,
    sellTrades: nat,
    totalVolume: real,
    totalCommission: real,
    commissionAsset: string)

  /** The whole simulated account: balances by asset and the position list. */
  datatype Ledger = Ledger(balances: map<string, real>, positions: seq<Position>)

  const InitialUsdt: real := 10000.0
  const FeeRate: real := 0.001
  /** A position whose amount falls to this or below is closed. */
  const DustAmount: real := 0.000001

  /** The index of the first position held in `symbol`, if any. */
  function FindPosition(ps: seq<Position>, symbol: string): (idx: Option<nat>)
    ensures idx.Some? ==> idx.value < |ps| && ps[idx.value].symbol == symbol
    ensures idx.Some? ==> forall j :: 0 <= j < idx.value ==> ps[j].symbol != symbol
    ensures idx.None? <==> forall j :: 0 <= j < |ps| ==> ps[j].symbol != symbol
  {
    if ps == [] then None
    else if ps[0].symbol == symbol then Some(0)
    else match FindPosition(ps[1..], symbol)
      case Some(i) => Some(i + 1)
      case None => None
  }

  /** The amount held in `symbol`, 0 without a position. */
  function HeldAmount(ps: seq<Position>, symbol: string): real {
    match FindPosition(ps, symbol)
    case Some(i) => ps[i].amount
    case None => 0.0
  }

  ghost predicate UniqueSymbols(ps: seq<Position>) {
    forall i, j :: 0 <= i < j < |ps| ==> ps[i].symbol != ps[j].symbol
  }

  /**
   * What the simulator keeps true: both USDT and BTC have a balance, BTC never
   * goes negative, each symbol has at most one position and every position
   * holds a positive amount.
   */
  ghost predicate WellFormed(l: Ledger) {
    && "USDT" in l.balances && "BTC" in l.balances
    && l.balances["BTC"] >= 0.0
    && PositionsOk(l.positions)
  }

  /** One position per symbol, each with a positive amount. */
  ghost predicate PositionsOk(ps: seq<Position>) {
    UniqueSymbols(ps) && forall i :: 0 <= i < |ps| ==> ps[i].amount > 0.0
  }

  function InitialLedger(): Ledger {
    Ledger(map["USDT" := InitialUsdt, "BTC" := 0.0], [])
  }

  /** The balance map with new USDT and BTC amounts; every other asset is kept. */
  function Rebalance(m: map<string, real>, usdt: real, btc: real): (r: map<string, real>)
    ensures r.Keys == m.Keys + {"USDT", "BTC"}
    ensures r["USDT"] == usdt && r["BTC"] == btc
    ensures forall k :: k in m && k != "USDT" && k != "BTC" ==> r[k] == m[k]
  {
    m["USDT" := usdt]["BTC" := btc]
  }

  /** What a Buy costs: the notional plus the 0.1% fee on it. */
  function BuyCost(quantity: real, price: real): (cost: real)
    ensures cost == quantity * price * 1.001
  {
    var fee := quantity * price * FeeRate;
    quantity * price + fee
  }

  /** What a Sell credits: the revenue less the 0.1% fee on it. */
  function SellProceeds(quantity: real, price: real): (proceeds: real)
    ensures proceeds == quantity * price * 0.999
  {
    var revenue := quantity * price;
    var fee := revenue * FeeRate;
    revenue - fee
  }

  /** The entry price of a grown position: its cost basis plus the new cost, over the new amount. */
  function AveragedEntry(held: Position, quantity: real, cost: real): real
    requires held.amount + quantity != 0.0
  {
    (held.amount * held.entryPrice + cost) / (held.amount + quantity)
  }

  /** The PnL a Sell realizes against a position: proceeds less the entry cost of what was sold. */
  function RealizedPnl(proceeds: real, entryPrice: real, quantity: real): real {
    proceeds - entryPrice * quantity
  }

  /** The positions after buying `quantity` of `symbol` for `cost`: the held position grows, or a new one opens. */
  function GrownPositions(ps: seq<Position>, symbol: string, quantity: real, cost: real): seq<Position>
    requires quantity > 0.0 && forall j :: 0 <= j < |ps| ==> ps[j].amount > 0.0
  {
    match FindPosition(ps, symbol)
    case Some(i) =>
      var p := ps[i];
      ps[i := p.(amount := p.amount + quantity, entryPrice := AveragedEntry(p, quantity, cost))]
    case None =>
      ps + [Position(symbol, quantity, cost / quantity, 0.0, "Spot", "Long")]
  }

  /** The positions after selling `quantity` from the position at `i`: it shrinks, or closes at dust. */
  function ShrunkPositions(ps: seq<Position>, i: nat, quantity: real): seq<Position>
    requires i < |ps|
  {
    var amount := ps[i].amount - quantity;
    if amount <= DustAmount then ps[..i] + ps[i + 1..]
    else ps[i := ps[i].(amount := amount)]
  }

  /** The Buy branch: debit cost plus fee, credit BTC, open or grow the position. */
  function ApplyBuy(l: Ledger, symbol: string, price: Option<real>, quantity: real): Ledger
    requires WellFormed(l) && quantity > 0.0
  {
    var estPrice := price.GetOr(0.0);
    if estPrice == 0.0 then l
    else
      var cost := BuyCost(quantity, estPrice);
      if l.balances["USDT"] >= cost then
        Ledger(Rebalance(l.balances, l.balances["USDT"] - cost, l.balances["BTC"] + quantity),
               GrownPositions(l.positions, symbol, quantity, cost))
      else l
  }

  /** The Sell branch, with its realized PnL. */
  function ApplySell(l: Ledger, symbol: string, price: Option<real>, quantity: real): (Ledger, real)
    requires WellFormed(l)
  {
    if l.balances["BTC"] >= quantity then
      var debited := l.balances["BTC" := l.balances["BTC"] - quantity];
      var estPrice := price.GetOr(0.0);
      if estPrice == 0.0 then (Ledger(debited, l.positions), 0.0)
      else
        var proceeds := SellProceeds(quantity, estPrice);
        var balances := Rebalance(l.balances, l.balances["USDT"] + proceeds, l.balances["BTC"] - quantity);
        match FindPosition(l.positions, symbol)
        case Some(i) =>
          (Ledger(balances, ShrunkPositions(l.positions, i, quantity)),
           RealizedPnl(proceeds, l.positions[i].entryPrice, quantity))
        case None => (Ledger(balances, l.positions), 0.0)
    else (l, 0.0)
  }

  /** The simulated `execute`: the new account and the realized PnL. */
  function Apply(l: Ledger, signal: Signal): (Ledger, real)
    requires WellFormed(l) && (signal.Buy? ==> signal.quantity > 0.0)
  {
    match signal
    case Buy(symbol, price, quantity) => (ApplyBuy(l, symbol, price, quantity), 0.0)
    case Sell(symbol, price, quantity) => ApplySell(l, symbol, price, quantity)
    case Cancel(_, _) => (l, 0.0)
  }

  /** With unique symbols, a match at `i` is the position of that symbol. */
  lemma FindUnique(ps: seq<Position>, symbol: string, i: nat)
    requires UniqueSymbols(ps) && i < |ps| && ps[i].symbol == symbol
    ensures FindPosition(ps, symbol) == Some(i)
  {
  }

  /**
   * Buying grows the symbol's holding by the quantity bought and leaves every
   * other symbol's holding alone; symbols stay unique and amounts positive.
   */
  lemma GrownPositionsProps(ps: seq<Position>, symbol: string, quantity: real, cost: real)
    requires PositionsOk(ps) && quantity > 0.0
    ensures PositionsOk(GrownPositions(ps, symbol, quantity, cost))
    ensures HeldAmount(GrownPositions(ps, symbol, quantity, cost), symbol) == HeldAmount(ps, symbol) + quantity
    ensures forall s :: s != symbol ==> HeldAmount(GrownPositions(ps, symbol, quantity, cost), s) == HeldAmount(ps, s)
  {
    var ps' := GrownPositions(ps, symbol, quantity, cost);
    match FindPosition(ps, symbol)
    case Some(i) =>
      assert ps' == ps[i := ps'[i]];
      FindUnique(ps', symbol, i);
      forall s | s != symbol
        ensures HeldAmount(ps', s) == HeldAmount(ps, s)
      {
        match FindPosition(ps, s)
        case Some(k) => FindUnique(ps', s, k);
        case None =>
          assert forall j :: 0 <= j < |ps'| ==> ps'[j].symbol != s;
      }
    case None =>
      assert ps' == ps + [ps'[|ps|]];
      FindUnique(ps', symbol, |ps|);
      forall s | s != symbol
        ensures HeldAmount(ps', s) == HeldAmount(ps, s)
      {
        match FindPosition(ps, s)
        case Some(k) => FindUnique(ps', s, k);
        case None =>
          assert forall j :: 0 <= j < |ps'| ==> ps'[j].symbol != s;
      }
  }

  /**
   * Selling from the position at `i` lowers its holding by the quantity, to
   * nothing once at most the dust amount would be left; symbols stay unique
   * and amounts positive.
   */
  lemma ShrunkPositionsProps(ps: seq<Position>, i: nat, quantity: real)
    requires PositionsOk(ps) && i < |ps|
    ensures PositionsOk(ShrunkPositions(ps, i, quantity))
    ensures HeldAmount(ShrunkPositions(ps, i, quantity), ps[i].symbol)
      == if ps[i].amount - quantity <= DustAmount then 0.0 else ps[i].amount - quantity
  {
    var ps' := ShrunkPositions(ps, i, quantity);
    if ps[i].amount - quantity > DustAmount {
      FindUnique(ps', ps[i].symbol, i);
    } else {
      assert ps' == ps[..i] + ps[i + 1..];
      forall a, b | 0 <= a < b < |ps'|
        ensures ps'[a].symbol != ps'[b].symbol
      {
        var a' := if a < i then a else a + 1;
        var b' := if b < i then b else b + 1;
        assert ps'[a] == ps[a'] && ps'[b] == ps[b'];
      }
      forall j | 0 <= j < |ps'|
        ensures ps'[j].symbol != ps[i].symbol
      {
        var j' := if j < i then j else j + 1;
        assert ps'[j] == ps[j'];
      }
    }
  }

  /** A Buy keeps the account well formed. */
  lemma BuyWellFormed(l: Ledger, symbol: string, price: Option<real>, quantity: real)
    requires WellFormed(l) && quantity > 0.0
    ensures WellFormed(ApplyBuy(l, symbol, price, quantity))
  {
    var estPrice := price.GetOr(0.0);
    if estPrice != 0.0 {
      GrownPositionsProps(l.positions, symbol, quantity, BuyCost(quantity, estPrice));
    }
  }

  /** A Sell keeps the account well formed. */
  lemma SellWellFormed(l: Ledger, symbol: string, price: Option<real>, quantity: real)
    requires WellFormed(l)
    ensures WellFormed(ApplySell(l, symbol, price, quantity).0)
  {
    var idx := FindPosition(l.positions, symbol);
    if idx.Some? {
      ShrunkPositionsProps(l.positions, idx.value, quantity);
    }
  }

  /** Every execution keeps the account well formed. */
  lemma ApplyWellFormed(l: Ledger, signal: Signal)
    requires WellFormed(l) && (signal.Buy? ==> signal.quantity > 0.0)
    ensures WellFormed(Apply(l, signal).0)
  {
    match signal
    case Buy(symbol, price, quantity) => BuyWellFormed(l, symbol, price, quantity);
    case Sell(symbol, price, quantity) => SellWellFormed(l, symbol, price, quantity);
    case Cancel(_, _) =>
  }

  /**
   * A Buy never realizes PnL. With a missing or zero price, or when USDT does
   * not cover `qty*price*1.001`, nothing changes.
   */
  lemma BuySkipped(l: Ledger, symbol: string, price: Option<real>, quantity: real)
    requires WellFormed(l) && quantity > 0.0
    requires price.GetOr(0.0) == 0.0 || l.balances["USDT"] < BuyCost(quantity, price.GetOr(0.0))
    ensures Apply(l, Buy(symbol, price, quantity)) == (l, 0.0)
  {
  }

  /**
   * A Buy whose price is known and whose cost `qty*price*1.001` USDT covers
   * executes: USDT drops by exactly the cost, BTC rises by `qty`, the symbol's
   * position grows by `qty`, every other symbol's holding is unchanged, and the
   * realized PnL is 0.
   */
  lemma BuyExecuted(l: Ledger, symbol: string, price: Option<real>, quantity: real)
    requires WellFormed(l) && quantity > 0.0
    requires price.GetOr(0.0) != 0.0 && l.balances["USDT"] >= BuyCost(quantity, price.GetOr(0.0))
    ensures Apply(l, Buy(symbol, price, quantity)).1 == 0.0
    ensures Apply(l, Buy(symbol, price, quantity)).0.balances
      == Rebalance(l.balances, l.balances["USDT"] - BuyCost(quantity, price.GetOr(0.0)), l.balances["BTC"] + quantity)
    ensures HeldAmount(Apply(l, Buy(symbol, price, quantity)).0.positions, symbol) == HeldAmount(l.positions, symbol) + quantity
    ensures forall s :: s != symbol ==>
      HeldAmount(Apply(l, Buy(symbol, price, quantity)).0.positions, s) == HeldAmount(l.positions, s)
  {
    GrownPositionsProps(l.positions, symbol, quantity, BuyCost(quantity, price.GetOr(0.0)));
  }

  /** A Sell with less BTC than `qty` changes nothing and realizes 0. */
  lemma SellShort(l: Ledger, symbol: string, price: Option<real>, quantity: real)
    requires WellFormed(l) && l.balances["BTC"] < quantity
    ensures Apply(l, Sell(symbol, price, quantity)) == (l, 0.0)
  {
  }

  /**
   * A Sell with enough BTC but a missing or zero price only deducts the BTC:
   * no USDT is credited, positions are untouched and the PnL is 0.
   */
  lemma SellWithoutPrice(l: Ledger, symbol: string, price: Option<real>, quantity: real)
    requires WellFormed(l) && l.balances["BTC"] >= quantity && price.GetOr(0.0) == 0.0
    ensures Apply(l, Sell(symbol, price, quantity))
      == (Ledger(l.balances["BTC" := l.balances["BTC"] - quantity], l.positions), 0.0)
  {
  }

  /**
   * A priced Sell with enough BTC deducts `qty` BTC and credits
   * `revenue*0.999` USDT. Without a position in the symbol the positions are
   * untouched and the PnL is 0; with one, the PnL is
   * `(revenue - fee) - entry*qty` and the holding drops by `qty`, to nothing
   * once at most 1e-6 would be left.
   */
  lemma SellExecuted(l: Ledger, symbol: string, price: Option<real>, quantity: real)
    requires WellFormed(l) && l.balances["BTC"] >= quantity && price.GetOr(0.0) != 0.0
    ensures Apply(l, Sell(symbol, price, quantity)).0.balances
      == Rebalance(l.balances, l.balances["USDT"] + SellProceeds(quantity, price.GetOr(0.0)), l.balances["BTC"] - quantity)
    ensures FindPosition(l.positions, symbol).None? ==>
      Apply(l, Sell(symbol, price, quantity)) == (Ledger(Apply(l, Sell(symbol, price, quantity)).0.balances, l.positions), 0.0)
    ensures FindPosition(l.positions, symbol).Some? ==>
      var held := l.positions[FindPosition(l.positions, symbol).value];
      && Apply(l, Sell(symbol, price, quantity)).1 == RealizedPnl(SellProceeds(quantity, price.GetOr(0.0)), held.entryPrice, quantity)
      && HeldAmount(Apply(l, Sell(symbol, price, quantity)).0.positions, symbol)
        == (if held.amount - quantity <= DustAmount then 0.0 else held.amount - quantity)
  {
    var idx := FindPosition(l.positions, symbol);
    if idx.Some? {
      ShrunkPositionsProps(l.positions, idx.value, quantity);
    }
  }

  class Simulator {
    var balances: map<string, real>
    var positions: seq<Position>

    function Account(): Ledger
      reads this
    {
      Ledger(balances, positions)
    }

    ghost predicate Valid()
      reads this
    {
      WellFormed(Account())
    }

    /** A fresh simulator: 10000 USDT, 0 BTC, no positions. */
    constructor()
      ensures Valid()
      ensures balances == map["USDT" := 10000.0, "BTC" := 0.0] && positions == []
    {
      balances := map["USDT" := InitialUsdt, "BTC" := 0.0];
      positions := [];
    }

    /** The index of the position held in `symbol`, by linear search. */
    method Find(symbol: string) returns (idx: Option<nat>)
      ensures idx == FindPosition(positions, symbol)
    {
      var i := 0;
      while i < |positions|
        invariant i <= |positions|
        invariant forall j :: 0 <= j < i ==> positions[j].symbol != symbol
      {
        if positions[i].symbol == symbol {
          return Some(i);
        }
        i := i + 1;
      }
      return None;
    }

    /** The simulated `execute`: updates the account and returns the realized PnL. */
    method Execute(signal: Signal) returns (realizedPnl: real)
      requires Valid() && (signal.Buy? ==> signal.quantity > 0.0)
      modifies this
      ensures Valid()
      ensures (Account(), realizedPnl) == Apply(old(Account()), signal)
    {
      ApplyWellFormed(Account(), signal);
      realizedPnl := 0.0;
      match signal
      case Buy(symbol, price, quantity) =>
        BuyInPlace(symbol, price, quantity);
      case Sell(symbol, price, quantity) =>
        realizedPnl := SellInPlace(symbol, price, quantity);
      case Cancel(_, _) =>
    }

    /** The Buy branch of `execute`, updating the balances and positions in place. */
    method BuyInPlace(symbol: string, price: Option<real>, quantity: real)
      requires Valid() && quantity > 0.0
      modifies this
      ensures Account() == ApplyBuy(old(Account()), symbol, price, quantity)
    {
      var estPrice := price.GetOr(0.0);
      if estPrice == 0.0 {
        return;
      }
      var cost := BuyCost(quantity, estPrice);
      if balances["USDT"] >= cost {
        var idx := Find(symbol);
        balances := Rebalance(balances, balances["USDT"] - cost, balances["BTC"] + quantity);
        match idx
        case Some(i) =>
          var p := positions[i];
          positions := positions[i := p.(amount := p.amount + quantity, entryPrice := AveragedEntry(p, quantity, cost))];
          assert positions == GrownPositions(old(positions), symbol, quantity, cost);
        case None =>
          positions := positions + [Position(symbol, quantity, cost / quantity, 0.0, "Spot", "Long")];
          assert positions == GrownPositions(old(positions), symbol, quantity, cost);
      }
    }

    /** The Sell branch of `execute`, updating the balances and positions in place. */
    method SellInPlace(symbol: string, price: Option<real>, quantity: real) returns (realizedPnl: real)
      requires Valid()
      modifies this
      ensures (Account(), realizedPnl) == ApplySell(old(Account()), symbol, price, quantity)
    {
      realizedPnl := 0.0;
      if balances["BTC"] >= quantity {
        var estPrice := price.GetOr(0.0);
        if estPrice == 0.0 {
          balances := balances["BTC" := balances["BTC"] - quantity];
          return;
        }
        var proceeds := SellProceeds(quantity, estPrice);
        balances := Rebalance(balances, balances["USDT"] + proceeds, balances["BTC"] - quantity);
        var idx := Find(symbol);
        match idx
        case Some(i) =>
          var buyPrice := positions[i].entryPrice;
          realizedPnl := RealizedPnl(proceeds, buyPrice, quantity);
          var amount := positions[i].amount - quantity;
          ghost var held := positions;
          positions := positions[i := positions[i].(amount := amount)];
          if positions[i].amount <= DustAmount {
            assert positions[..i] == held[..i] && positions[i + 1..] == held[i + 1..];
            positions := positions[..i] + positions[i + 1..];
          }
        case None =>
      }
    }

    /**
     * The balances as (asset, amount) pairs in some order: each asset of the
     * map exactly once, with its amount.
     */
    method GetBalances() returns (pairs: seq<(string, real)>)
      ensures forall i :: 0 <= i < |pairs| ==> pairs[i].0 in balances && pairs[i].1 == balances[pairs[i].0]
      ensures forall i, j :: 0 <= i < j < |pairs| ==> pairs[i].0 != pairs[j].0
      ensures forall k :: k in balances ==> exists i :: 0 <= i < |pairs| && pairs[i].0 == k
    {
      var rest := balances.Keys;
      pairs := [];
      ghost var at: map<string, nat> := map[];
      while rest != {}
        invariant rest <= balances.Keys
        invariant forall i :: 0 <= i < |pairs| ==> pairs[i].0 in balances && pairs[i].1 == balances[pairs[i].0]
        invariant forall i :: 0 <= i < |pairs| ==> pairs[i].0 !in rest
        invariant forall i, j :: 0 <= i < j < |pairs| ==> pairs[i].0 != pairs[j].0
        invariant forall k :: k in balances && k !in rest ==> k in at && at[k] < |pairs| && pairs[at[k]].0 == k
        decreases rest
      {
        var k :| k in rest;
        at := at[k := |pairs|];
        pairs := pairs + [(k, balances[k])];
        rest := rest - {k};
      }
      forall k | k in balances
        ensures exists i :: 0 <= i < |pairs| && pairs[i].0 == k
      {
        assert pairs[at[k]].0 == k;
      }
    }

    /** A copy of the position list. */
    method GetPositions() returns (ps: seq<Position>)
      requires Valid()
      ensures ps == positions && UniqueSymbols(ps)
    {
      ps := positions;
    }

    /** The simulator reports the default statistics record, whatever the symbol. */
    method GetTradeStats(symbol: string) returns (stats: TradeStats)
      ensures stats.totalTrades == 0 && stats.buyTrades == 0 && stats.sellTrades == 0
      ensures stats.totalVolume == 0.0 && stats.totalCommission == 0.0 && stats.commissionAsset == ""
    {
      stats := TradeStats(0, 0, 0, 0.0, 0.0, "");
    }
  }
}
