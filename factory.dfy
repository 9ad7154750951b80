/** `StrategyFactory`: building a strategy from its registered name. */
module Factory {
  import opened Common

  /** The 26 strategies the factory can build. */
  datatype StrategyKind =
    | MeanReversion | PaperTrader | MomentumBreakout | AdaptiveMeanReversion
    | VWAPStrategy | ScalperStrategy | BreakoutRange | MACDCrossover
    | GridTrading | RSIStrategy | TrendFollower | DCAStrategy
    | VolatilityBreakout | SwingTrader | Martingale | ParabolicSAR
    | StochasticOscillator | BBSqueeze | ChaikinMoneyFlow | TRIXStrategy
    | DonchianChannels | HullMA | FibonacciReversion | IchimokuCloud
    | HeikinAshiTrend | BuyAndHold

  /** The name each strategy reports through `TradingStrategy::name`. */
  function Name(k: StrategyKind): string {
    match k
    case MeanReversion => "MeanReversion"
    case PaperTrader => "PaperTrader"
    case MomentumBreakout => "MomentumBreakout"
    case AdaptiveMeanReversion => "AdaptiveMeanReversion"
    case VWAPStrategy => "VWAPStrategy"
    case ScalperStrategy => "ScalperStrategy"
    case BreakoutRange => "BreakoutRange"
    case MACDCrossover => "MACDCrossover"
    case GridTrading => "GridTrading"
    case RSIStrategy => "RSIStrategy"
    case TrendFollower => "TrendFollower"
    case DCAStrategy => "DCAStrategy"
    case VolatilityBreakout => "VolatilityBreakout"
    case SwingTrader => "SwingTrader"
    case Martingale => "Martingale"
    case ParabolicSAR => "ParabolicSAR"
    case StochasticOscillator => "StochasticOscillator"
    case BBSqueeze => "BBSqueeze"
    case ChaikinMoneyFlow => "ChaikinMoneyFlow"
    case TRIXStrategy => "TRIXStrategy"
    case DonchianChannels => "DonchianChannels"
    case HullMA => "HullMA"
    case FibonacciReversion => "FibonacciReversion"
    case IchimokuCloud => "IchimokuCloud"
    case HeikinAshiTrend => "HeikinAshiTrend"
    case BuyAndHold => "BuyAndHold"
  }

  /** `create_strategy`: the strategy registered under `name`, if any. */
  function CreateStrategy(name: string): Option<StrategyKind> {
    match name
    case "MeanReversion" => Some(MeanReversion)
    case "PaperTrader" => Some(PaperTrader)
    case "MomentumBreakout" => Some(MomentumBreakout)
    case "AdaptiveMeanReversion" => Some(AdaptiveMeanReversion)
    case "VWAPStrategy" => Some(VWAPStrategy)
    case "ScalperStrategy" => Some(ScalperStrategy)
    case "BreakoutRange" => Some(BreakoutRange)
    case "MACDCrossover" => Some(MACDCrossover)
    case "GridTrading" => Some(GridTrading)
    case "RSIStrategy" => Some(RSIStrategy)
    case "TrendFollower" => Some(TrendFollower)
    case "DCAStrategy" => Some(DCAStrategy)
    case "VolatilityBreakout" => Some(VolatilityBreakout)
    case "SwingTrader" => Some(SwingTrader)
    case "Martingale" => Some(Martingale)
    case "ParabolicSAR" => Some(ParabolicSAR)
    case "StochasticOscillator" => Some(StochasticOscillator)
    case "BBSqueeze" => Some(BBSqueeze)
    case "ChaikinMoneyFlow" => Some(ChaikinMoneyFlow)
    case "TRIXStrategy" => Some(TRIXStrategy)
    case "DonchianChannels" => Some(DonchianChannels)
    case "HullMA" => Some(HullMA)
    case "FibonacciReversion" => Some(FibonacciReversion)
    case "IchimokuCloud" => Some(IchimokuCloud)
    case "HeikinAshiTrend" => Some(HeikinAshiTrend)
    case "BuyAndHold" => Some(BuyAndHold)
    case _ => None
  }

  /** `get_available_strategies`: the names offered to the dashboard. */
  function AvailableStrategies(): (names: seq<string>)
    ensures |names| == 26
  {
    ["MeanReversion", "PaperTrader", "MomentumBreakout", "AdaptiveMeanReversion",
     "VWAPStrategy", "ScalperStrategy", "BreakoutRange", "MACDCrossover",
     "GridTrading", "RSIStrategy", "TrendFollower", "DCAStrategy",
     "VolatilityBreakout", "SwingTrader", "Martingale", "ParabolicSAR",
     "StochasticOscillator", "BBSqueeze", "ChaikinMoneyFlow", "TRIXStrategy",
     "DonchianChannels", "HullMA", "FibonacciReversion", "IchimokuCloud",
     "HeikinAshiTrend", "BuyAndHold"]
  }

  /**
   * Every strategy is built from its own name. The proof goes by the
   * position of the name in the factory's match, in four groups.
   */
  lemma CreateFromName(k: StrategyKind)
    ensures CreateStrategy(Name(k)) == Some(k)
  {
    if k.MeanReversion? || k.PaperTrader? || k.MomentumBreakout? || k.AdaptiveMeanReversion?
       || k.VWAPStrategy? || k.ScalperStrategy? || k.BreakoutRange? || k.MACDCrossover?
       || k.GridTrading? || k.RSIStrategy? || k.TrendFollower? || k.DCAStrategy?
       || k.VolatilityBreakout? {
      CreateFromNamesOneToThirteen(k);
    } else if k.SwingTrader? || k.Martingale? || k.ParabolicSAR? || k.StochasticOscillator?
           || k.BBSqueeze? || k.ChaikinMoneyFlow? {
      CreateFromNamesFourteenToNineteen(k);
    } else if k.TRIXStrategy? || k.DonchianChannels? || k.HullMA? || k.FibonacciReversion? {
      CreateFromNamesTwentyToTwentyThree(k);
    } else {
      CreateFromNamesTwentyFourToTwentySix(k);
    }
  }

  lemma CreateFromNamesOneToThirteen(k: StrategyKind)
    requires k.MeanReversion? || k.PaperTrader? || k.MomentumBreakout? || k.AdaptiveMeanReversion?
             || k.VWAPStrategy? || k.ScalperStrategy? || k.BreakoutRange? || k.MACDCrossover?
             || k.GridTrading? || k.RSIStrategy? || k.TrendFollower? || k.DCAStrategy?
             || k.VolatilityBreakout?
    ensures CreateStrategy(Name(k)) == Some(k)
  {
    match k
    case MeanReversion => assert Name(k) == "MeanReversion";
    case PaperTrader => assert Name(k) == "PaperTrader";
    case MomentumBreakout => assert Name(k) == "MomentumBreakout";
    case AdaptiveMeanReversion => assert Name(k) == "AdaptiveMeanReversion";
    case VWAPStrategy => assert Name(k) == "VWAPStrategy";
    case ScalperStrategy => assert Name(k) == "ScalperStrategy";
    case BreakoutRange => assert Name(k) == "BreakoutRange";
    case MACDCrossover => assert Name(k) == "MACDCrossover";
    case GridTrading => assert Name(k) == "GridTrading";
    case RSIStrategy => assert Name(k) == "RSIStrategy";
    case TrendFollower => assert Name(k) == "TrendFollower";
    case DCAStrategy => assert Name(k) == "DCAStrategy";
    case VolatilityBreakout => assert Name(k) == "VolatilityBreakout";
  }

  lemma CreateFromNamesFourteenToNineteen(k: StrategyKind)
    requires k.SwingTrader? || k.Martingale? || k.ParabolicSAR? || k.StochasticOscillator?
             || k.BBSqueeze? || k.ChaikinMoneyFlow?
    ensures CreateStrategy(Name(k)) == Some(k)
  {
    match k
    case SwingTrader => assert Name(k) == "SwingTrader";
    case Martingale => assert Name(k) == "Martingale";
    case ParabolicSAR => assert Name(k) == "ParabolicSAR";
    case StochasticOscillator => assert Name(k) == "StochasticOscillator";
    case BBSqueeze => assert Name(k) == "BBSqueeze";
    case ChaikinMoneyFlow => assert Name(k) == "ChaikinMoneyFlow";
  }

  lemma CreateFromNamesTwentyToTwentyThree(k: StrategyKind)
    requires k.TRIXStrategy? || k.DonchianChannels? || k.HullMA? || k.FibonacciReversion?
    ensures CreateStrategy(Name(k)) == Some(k)
  {
    match k
    case TRIXStrategy => assert Name(k) == "TRIXStrategy";
    case DonchianChannels => assert Name(k) == "DonchianChannels";
    case HullMA => assert Name(k) == "HullMA";
    case FibonacciReversion => assert Name(k) == "FibonacciReversion";
  }

  lemma CreateFromNamesTwentyFourToTwentySix(k: StrategyKind)
    requires k.IchimokuCloud? || k.HeikinAshiTrend? || k.BuyAndHold?
    ensures CreateStrategy(Name(k)) == Some(k)
  {
    match k
    case IchimokuCloud => assert Name(k) == "IchimokuCloud";
    case HeikinAshiTrend => assert Name(k) == "HeikinAshiTrend";
    case BuyAndHold => assert Name(k) == "BuyAndHold";
  }

  /** A built strategy reports the name it was built from. */
  lemma NameOfCreated(name: string)
    ensures CreateStrategy(name).Some? ==> Name(CreateStrategy(name).value) == name
  {
  }

  /** The strategies in the order `get_available_strategies` lists them. */
  function AllKinds(): (ks: seq<StrategyKind>)
    ensures |ks| == 26
  {
    [MeanReversion, PaperTrader, MomentumBreakout, AdaptiveMeanReversion,
     VWAPStrategy, ScalperStrategy, BreakoutRange, MACDCrossover,
     GridTrading, RSIStrategy, TrendFollower, DCAStrategy,
     VolatilityBreakout, SwingTrader, Martingale, ParabolicSAR,
     StochasticOscillator, BBSqueeze, ChaikinMoneyFlow, TRIXStrategy,
     DonchianChannels, HullMA, FibonacciReversion, IchimokuCloud,
     HeikinAshiTrend, BuyAndHold]
  }

  /** The advertised list is the name of each strategy, in order. */
  lemma AvailableNamesKinds()
    ensures forall i :: 0 <= i < 26 ==> AvailableStrategies()[i] == Name(AllKinds()[i])
  {
    AllKindsFrom0();
    AllKindsFrom4();
    AllKindsFrom8();
    AllKindsFrom14();
    AllKindsFrom20();
    AvailableNamesFrom0();
    AvailableNamesFrom4();
    AvailableNamesFrom8();
    AvailableNamesFrom14();
    AvailableNamesFrom20();
  }

  // The entries of both lists one by one, a few per lemma to keep each proof small.

  lemma AllKindsFrom0()
    ensures AllKinds()[0] == MeanReversion
    ensures AllKinds()[1] == PaperTrader
    ensures AllKinds()[2] == MomentumBreakout
    ensures AllKinds()[3] == AdaptiveMeanReversion
  {
  }

  lemma AllKindsFrom4()
    ensures AllKinds()[4] == VWAPStrategy
    ensures AllKinds()[5] == ScalperStrategy
    ensures AllKinds()[6] == BreakoutRange
    ensures AllKinds()[7] == MACDCrossover
  {
  }

  lemma AllKindsFrom8()
    ensures AllKinds()[8] == GridTrading
    ensures AllKinds()[9] == RSIStrategy
    ensures AllKinds()[10] == TrendFollower
    ensures AllKinds()[11] == DCAStrategy
    ensures AllKinds()[12] == VolatilityBreakout
    ensures AllKinds()[13] == SwingTrader
  {
  }

  lemma AllKindsFrom14()
    ensures AllKinds()[14] == Martingale
    ensures AllKinds()[15] == ParabolicSAR
    ensures AllKinds()[16] == StochasticOscillator
    ensures AllKinds()[17] == BBSqueeze
    ensures AllKinds()[18] == ChaikinMoneyFlow
    ensures AllKinds()[19] == TRIXStrategy
  {
  }

  lemma AllKindsFrom20()
    ensures AllKinds()[20] == DonchianChannels
    ensures AllKinds()[21] == HullMA
    ensures AllKinds()[22] == FibonacciReversion
    ensures AllKinds()[23] == IchimokuCloud
    ensures AllKinds()[24] == HeikinAshiTrend
    ensures AllKinds()[25] == BuyAndHold
  {
  }

  lemma AvailableNamesFrom0()
    ensures AvailableStrategies()[0] == Name(MeanReversion)
    ensures AvailableStrategies()[1] == Name(PaperTrader)
    ensures AvailableStrategies()[2] == Name(MomentumBreakout)
    ensures AvailableStrategies()[3] == Name(AdaptiveMeanReversion)
  {
  }

  lemma AvailableNamesFrom4()
    ensures AvailableStrategies()[4] == Name(VWAPStrategy)
    ensures AvailableStrategies()[5] == Name(ScalperStrategy)
    ensures AvailableStrategies()[6] == Name(BreakoutRange)
    ensures AvailableStrategies()[7] == Name(MACDCrossover)
  {
  }

  lemma AvailableNamesFrom8()
    ensures AvailableStrategies()[8] == Name(GridTrading)
    ensures AvailableStrategies()[9] == Name(RSIStrategy)
    ensures AvailableStrategies()[10] == Name(TrendFollower)
    ensures AvailableStrategies()[11] == Name(DCAStrategy)
    ensures AvailableStrategies()[12] == Name(VolatilityBreakout)
    ensures AvailableStrategies()[13] == Name(SwingTrader)
  {
  }

  lemma AvailableNamesFrom14()
    ensures AvailableStrategies()[14] == Name(Martingale)
    ensures AvailableStrategies()[15] == Name(ParabolicSAR)
    ensures AvailableStrategies()[16] == Name(StochasticOscillator)
    ensures AvailableStrategies()[17] == Name(BBSqueeze)
    ensures AvailableStrategies()[18] == Name(ChaikinMoneyFlow)
    ensures AvailableStrategies()[19] == Name(TRIXStrategy)
  {
  }

  lemma AvailableNamesFrom20()
    ensures AvailableStrategies()[20] == Name(DonchianChannels)
    ensures AvailableStrategies()[21] == Name(HullMA)
    ensures AvailableStrategies()[22] == Name(FibonacciReversion)
    ensures AvailableStrategies()[23] == Name(IchimokuCloud)
    ensures AvailableStrategies()[24] == Name(HeikinAshiTrend)
    ensures AvailableStrategies()[25] == Name(BuyAndHold)
  {
  }

  /** Every strategy appears once in the list. */
  lemma AllKindsListed(k: StrategyKind)
    ensures k in AllKinds()
  {
  }

  /** The position of a strategy in the advertised list. */
  function Position(k: StrategyKind): nat {
    match k
    case MeanReversion => 0
    case PaperTrader => 1
    case MomentumBreakout => 2
    case AdaptiveMeanReversion => 3
    case VWAPStrategy => 4
    case ScalperStrategy => 5
    case BreakoutRange => 6
    case MACDCrossover => 7
    case GridTrading => 8
    case RSIStrategy => 9
    case TrendFollower => 10
    case DCAStrategy => 11
    case VolatilityBreakout => 12
    case SwingTrader => 13
    case Martingale => 14
    case ParabolicSAR => 15
    case StochasticOscillator => 16
    case BBSqueeze => 17
    case ChaikinMoneyFlow => 18
    case TRIXStrategy => 19
    case DonchianChannels => 20
    case HullMA => 21
    case FibonacciReversion => 22
    case IchimokuCloud => 23
    case HeikinAshiTrend => 24
    case BuyAndHold => 25
  }

  /** Each strategy sits at its own position, so the list has no repeated strategy. */
  lemma AllKindsPositions()
    ensures forall i :: 0 <= i < 26 ==> Position(AllKinds()[i]) == i
  {
    AllKindsFrom0();
    AllKindsFrom4();
    AllKindsFrom8();
    AllKindsFrom14();
    AllKindsFrom20();
  }

  /** The factory builds exactly the strategies it advertises. */
  lemma AvailableMatchesFactory(name: string)
    ensures CreateStrategy(name).Some? <==> name in AvailableStrategies()
  {
    AvailableNamesKinds();
    if CreateStrategy(name).Some? {
      var k := CreateStrategy(name).value;
      NameOfCreated(name);
      AllKindsListed(k);
      var i :| 0 <= i < 26 && AllKinds()[i] == k;
      assert AvailableStrategies()[i] == name;
    }
    if name in AvailableStrategies() {
      var i :| 0 <= i < 26 && AvailableStrategies()[i] == name;
      CreateFromName(AllKinds()[i]);
    }
  }

  /** The advertised names are pairwise distinct. */
  lemma AvailableDistinct()
    ensures forall i, j :: 0 <= i < j < |AvailableStrategies()| ==> AvailableStrategies()[i] != AvailableStrategies()[j]
  {
    var names := AvailableStrategies();
    AvailableNamesKinds();
    AllKindsPositions();
    forall i, j | 0 <= i < j < |names|
      ensures names[i] != names[j]
    {
      CreateFromName(AllKinds()[i]);
      CreateFromName(AllKinds()[j]);
    }
  }
}
