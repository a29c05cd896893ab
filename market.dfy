/** The instrument catalogue (`STOCK_LIST`, `SECTORS`) and the records that
    carry prices between the backend, the refresh cycle and the screens. */
module Market {
  import opened Seqs

  /** One static catalogue row; `isIndex` is false where the source leaves it out. */
  datatype Instrument = Instrument(sym: string, name: string, sector: string, iv: real, isIndex: bool)

  /** A catalogue row with its live fields: `price`, `chg` (percentage change)
      and `change` (absolute change). A row without a quote carries zeros,
      which every consumer in the core treats like the missing fields
      (`price || 0`, `price || 25587`). */
  datatype Listing = Listing(inst: Instrument, price: real, chg: real, change: real)

  /** A quote record as the backend's `fetch_one` builds it. */
  datatype Quote = Quote(sym: string, price: real, prevClose: real, change: real, changePct: real,
                         updatedAt: string)

  /** `STOCK_LIST`, in source order. */
  const StockList: seq<Instrument> := [
    Instrument("NIFTY50", "Nifty 50 Index", "Index", 0.18, true),
    Instrument("BANKNIFTY", "Bank Nifty Index", "Index", 0.24, true),
    Instrument("SENSEX", "BSE Sensex", "Index", 0.17, true),
    Instrument("NIFTYIT", "Nifty IT Index", "Index", 0.26, true),
    Instrument("NIFTYPHARMA", "Nifty Pharma Index", "Index", 0.23, true),
    Instrument("NIFTYAUTO", "Nifty Auto Index", "Index", 0.28, true),
    Instrument("FINNIFTY", "Nifty Financial Services", "Index", 0.25, true),
    Instrument("HDFCBANK", "HDFC Bank Ltd", "Banking", 0.32, false),
    Instrument("ICICIBANK", "ICICI Bank Ltd", "Banking", 0.29, false),
    Instrument("SBIN", "State Bank of India", "Banking", 0.35, false),
    Instrument("KOTAKBANK", "Kotak Mahindra Bank", "Banking", 0.28, false),
    Instrument("AXISBANK", "Axis Bank Ltd", "Banking", 0.33, false),
    Instrument("INDUSINDBK", "IndusInd Bank", "Banking", 0.38, false),
    Instrument("PNB", "Punjab National Bank", "Banking", 0.48, false),
    Instrument("CANBK", "Canara Bank", "Banking", 0.44, false),
    Instrument("BANKBARODA", "Bank of Baroda", "Banking", 0.40, false),
    Instrument("TCS", "Tata Consultancy Services", "IT", 0.22, false),
    Instrument("INFY", "Infosys Ltd", "IT", 0.25, false),
    Instrument("WIPRO", "Wipro Ltd", "IT", 0.27, false),
    Instrument("HCLTECH", "HCL Technologies", "IT", 0.24, false),
    Instrument("TECHM", "Tech Mahindra", "IT", 0.31, false),
    Instrument("LTIM", "LTIMindtree", "IT", 0.28, false),
    Instrument("PERSISTENT", "Persistent Systems", "IT", 0.32, false),
    Instrument("COFORGE", "Coforge Ltd", "IT", 0.35, false),
    Instrument("RELIANCE", "Reliance Industries", "Energy", 0.28, false),
    Instrument("ONGC", "Oil & Natural Gas Corp", "Energy", 0.38, false),
    Instrument("COALINDIA", "Coal India Ltd", "Energy", 0.35, false),
    Instrument("BPCL", "Bharat Petroleum", "Energy", 0.38, false),
    Instrument("ADANIGREEN", "Adani Green Energy", "Energy", 0.55, false),
    Instrument("ADANIPORTS", "Adani Ports & SEZ", "Infra", 0.45, false),
    Instrument("TATAPOWER", "Tata Power Company", "Power", 0.40, false),
    Instrument("NTPC", "NTPC Ltd", "Power", 0.32, false),
    Instrument("POWERGRID", "Power Grid Corp", "Power", 0.30, false),
    Instrument("TATAMOTORS", "Tata Motors Ltd", "Auto", 0.41, false),
    Instrument("MARUTI", "Maruti Suzuki India", "Auto", 0.28, false),
    Instrument("M&M", "Mahindra & Mahindra", "Auto", 0.33, false),
    Instrument("BAJAJ-AUTO", "Bajaj Auto Ltd", "Auto", 0.30, false),
    Instrument("HEROMOTOCO", "Hero MotoCorp", "Auto", 0.31, false),
    Instrument("EICHERMOT", "Eicher Motors", "Auto", 0.29, false),
    Instrument("TVSMOTOR", "TVS Motor Company", "Auto", 0.34, false),
    Instrument("HINDUNILVR", "Hindustan Unilever", "FMCG", 0.20, false),
    Instrument("ITC", "ITC Ltd", "FMCG", 0.22, false),
    Instrument("NESTLEIND", "Nestle India", "FMCG", 0.18, false),
    Instrument("BRITANNIA", "Britannia Industries", "FMCG", 0.23, false),
    Instrument("DABUR", "Dabur India", "FMCG", 0.24, false),
    Instrument("TATACONSUM", "Tata Consumer Products", "FMCG", 0.26, false),
    Instrument("SUNPHARMA", "Sun Pharmaceutical", "Pharma", 0.28, false),
    Instrument("DRREDDY", "Dr. Reddy's Laboratories", "Pharma", 0.25, false),
    Instrument("CIPLA", "Cipla Ltd", "Pharma", 0.27, false),
    Instrument("DIVISLAB", "Divi's Laboratories", "Pharma", 0.30, false),
    Instrument("LUPIN", "Lupin Ltd", "Pharma", 0.31, false),
    Instrument("APOLLOHOSP", "Apollo Hospitals", "Health", 0.30, false),
    Instrument("TATASTEEL", "Tata Steel Ltd", "Metals", 0.42, false),
    Instrument("JSWSTEEL", "JSW Steel Ltd", "Metals", 0.38, false),
    Instrument("HINDALCO", "Hindalco Industries", "Metals", 0.35, false),
    Instrument("VEDL", "Vedanta Ltd", "Metals", 0.45, false),
    Instrument("SAIL", "Steel Authority of India", "Metals", 0.44, false),
    Instrument("LT", "Larsen & Toubro", "Infra", 0.28, false),
    Instrument("DLF", "DLF Ltd", "Realty", 0.40, false),
    Instrument("GODREJPROP", "Godrej Properties", "Realty", 0.38, false),
    Instrument("RVNL", "Rail Vikas Nigam", "Infra", 0.45, false),
    Instrument("BHARTIARTL", "Bharti Airtel", "Telecom", 0.30, false),
    Instrument("IDEA", "Vodafone Idea", "Telecom", 0.70, false),
    Instrument("ULTRACEMCO", "UltraTech Cement", "Cement", 0.25, false),
    Instrument("AMBUJACEM", "Ambuja Cements", "Cement", 0.28, false),
    Instrument("ASIANPAINT", "Asian Paints", "Paints", 0.24, false),
    Instrument("BAJFINANCE", "Bajaj Finance Ltd", "Finance", 0.35, false),
    Instrument("BAJAJFINSV", "Bajaj Finserv", "Finance", 0.30, false),
    Instrument("HDFCLIFE", "HDFC Life Insurance", "Insurance", 0.28, false),
    Instrument("SBILIFE", "SBI Life Insurance", "Insurance", 0.27, false),
    Instrument("TITAN", "Titan Company", "Consumer", 0.28, false),
    Instrument("DMART", "Avenue Supermarts", "Retail", 0.27, false),
    Instrument("ZOMATO", "Zomato Ltd", "Tech", 0.55, false),
    Instrument("IRCTC", "IRCTC Ltd", "Travel", 0.40, false),
    Instrument("PAYTM", "One97 Communications", "Fintech", 0.60, false),
    Instrument("HAL", "Hindustan Aeronautics", "Defence", 0.38, false),
    Instrument("BEL", "Bharat Electronics", "Defence", 0.35, false),
    Instrument("BHEL", "Bharat Heavy Electricals", "PSU", 0.42, false),
    Instrument("MAZAGON", "Mazagon Dock Shipbuilders", "Defence", 0.38, false),
    Instrument("HAVELLS", "Havells India", "Electric", 0.28, false),
    Instrument("SIEMENS", "Siemens India", "Engineer", 0.26, false),
    Instrument("ABB", "ABB India", "Engineer", 0.27, false),
    Instrument("INDIGO", "InterGlobe Aviation", "Aviation", 0.38, false)
  ]

  /** The catalogue holds 83 instruments. */
  lemma StockListShape()
    ensures |StockList| == 83
  {
  }

  /** `catalogue.map(s => s.sym)`. */
  function Symbols(catalogue: seq<Instrument>): (r: seq<string>)
    ensures |r| == |catalogue|
    ensures forall i :: 0 <= i < |r| ==> r[i] == catalogue[i].sym
  {
    seq(|catalogue|, i requires 0 <= i < |catalogue| => catalogue[i].sym)
  }

  function SectorColumn(catalogue: seq<Instrument>): (r: seq<string>)
    ensures |r| == |catalogue|
    ensures forall i :: 0 <= i < |r| ==> r[i] == catalogue[i].sector
  {
    seq(|catalogue|, i requires 0 <= i < |catalogue| => catalogue[i].sector)
  }

  /** `SECTORS`: "All" followed by each catalogue sector once, in order of first appearance. */
  function Sectors(catalogue: seq<Instrument>): (r: seq<string>)
    ensures |r| >= 1 && r[0] == "All"
    ensures NoDuplicates(r[1..])
    ensures forall s :: s in r[1..] <==> exists i :: 0 <= i < |catalogue| && catalogue[i].sector == s
  {
    var col := SectorColumn(catalogue);
    var d := Distinct(col);
    assert forall s :: s in col <==> exists i :: 0 <= i < |catalogue| && catalogue[i].sector == s by {
      forall s ensures s in col <==> exists i :: 0 <= i < |catalogue| && catalogue[i].sector == s {
        if s in col { var i :| 0 <= i < |col| && col[i] == s; }
      }
    }
    assert (["All"] + d)[1..] == d;
    ["All"] + d
  }

  /** The sectors after "All" follow the catalogue's order of first appearance. */
  lemma SectorsInFirstAppearanceOrder(catalogue: seq<Instrument>, i: nat, j: nat)
    requires 1 <= i < j < |Sectors(catalogue)|
    ensures IndexOf(SectorColumn(catalogue), Sectors(catalogue)[i]) <
            IndexOf(SectorColumn(catalogue), Sectors(catalogue)[j])
  {
    var col := SectorColumn(catalogue);
    DistinctFirstAppearanceOrder(col);
    assert Sectors(catalogue)[i] == Distinct(col)[i - 1];
    assert Sectors(catalogue)[j] == Distinct(col)[j - 1];
  }
}
