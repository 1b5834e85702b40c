/** The live market data service that scrapes ilboursa.com: the TUNINDEX
    figure with its fallbacks, a stock quote read from the quote page's
    table rows, the market status, and the top movers. A fetched page is
    given by the texts its CSS selectors found; a failed fetch is None. */
module MarketData {
  import opened Common
  import opened Text
  import opened Numbers

  const DefaultIndex: real := 9850.0

  // ---------------------------------------------------------------------
  // TUNINDEX

  /** The stripped texts of the value and change elements, when found. */
  datatype IndexPage = IndexPage(valueText: Option<string>, changeText: Option<string>)

  /** The TUNINDEX dictionary; `timestamp` is absent from the two fallback
      dictionaries. */
  datatype Tunindex = Tunindex(value: Option<real>, change: Option<real>, changePct: Option<real>, timestamp: Option<string>)

  /** What a `float(...)` over an optional regular-expression match gives:
      no match, a number, or a ValueError. */
  datatype Parsed<T> = Absent | Value(v: T) | Invalid

  function FloatOf(m: Option<string>): (r: Parsed<real>)
    ensures m.None? <==> r.Absent?
  {
    if m.None? then Absent
    else
      var f := PyFloat(m.value);
      if f.None? then Invalid else Value(f.value)
  }

  /** The index value: spaces removed, the first `[\d\s]+[,.]?\d*` match,
      comma to point, spaces removed again, then float(). */
  function IndexValue(text: Option<string>): Parsed<real>
  {
    if text.None? then Absent
    else
      var m := MatchSpaced(Remove(text.value, ' '));
      if m.None? then Absent else FloatOf(Some(Remove(Replace(m.value, ',', '.'), ' ')))
  }

  /** The change percentage: the first `[+-]?\d+[,.]?\d*` match, comma to
      point, then float(). */
  function IndexChange(text: Option<string>): Parsed<real>
  {
    if text.None? then Absent
    else
      var m := MatchSigned(text.value);
      if m.None? then Absent else FloatOf(Some(Replace(m.value, ',', '.')))
  }

  /** The change text never raises: a signed match always reads as a float. */
  lemma IndexChangeNeverInvalid(text: Option<string>)
    ensures !IndexChange(text).Invalid?
  {
    if text.Some? && MatchSigned(text.value).Some? {
      SignedMatchParses(text.value);
    }
  }

  /** The index points a percentage change of `pct` amounts to. */
  function PointsChange(value: real, pct: real): real
  {
    value * pct / 100.0
  }

  /** get_tunindex. */
  function GetTunindex(page: Option<IndexPage>, now: string): (r: Tunindex)
    ensures page.None? ==> r == Tunindex(None, None, None, None)
    ensures page.Some? ==> r.value.Some? && r.value.value != 0.0 && r.changePct.Some?
    ensures page.Some? && r.change.Some? ==> r.change.value == PointsChange(r.value.value, r.changePct.value)
    ensures page.Some? && r.timestamp.None? ==> r == Tunindex(Some(DefaultIndex), Some(0.0), Some(0.0), None)
  {
    if page.None? then Tunindex(None, None, None, None)
    else
      var value := IndexValue(page.value.valueText);
      var pct := IndexChange(page.value.changeText);
      if value.Invalid? || pct.Invalid? then
        // The ValueError is caught and the fixed dictionary returned.
        Tunindex(Some(DefaultIndex), Some(0.0), Some(0.0), None)
      else
        var v := if value.Value? && value.v != 0.0 then value.v else DefaultIndex;
        var p := if pct.Value? then pct.v else 0.0;
        Tunindex(Some(v), if p != 0.0 then Some(PointsChange(v, p)) else None, Some(p), Some(now))
  }

  /** The value is the parsed figure unless it is missing or zero, then
      9850; a change is reported exactly when the percentage is non-zero;
      the percentage defaults to 0. The fixed fallback is taken only when
      the value text does not read as a float. */
  lemma TunindexFacts(page: IndexPage, now: string)
    ensures var r := GetTunindex(Some(page), now);
      (r.timestamp.None? <==> IndexValue(page.valueText).Invalid?)
      && (IndexValue(page.valueText).Value? && IndexValue(page.valueText).v != 0.0 ==>
            r.value == Some(IndexValue(page.valueText).v))
      && (IndexValue(page.valueText).Absent? ==> r.value == Some(DefaultIndex))
      && (r.timestamp.Some? ==> (r.change.Some? <==> IndexChange(page.changeText).Value? && IndexChange(page.changeText).v != 0.0))
      && (r.timestamp.Some? && IndexChange(page.changeText).Absent? ==> r.changePct == Some(0.0) && r.change.None?)
  {
    IndexChangeNeverInvalid(page.changeText);
  }

  /** "open" exactly between 9:00 and 14:00 (Tunis time of the server). */
  function MarketStatus(hour: int): (r: string)
    ensures r == "open" <==> 9 <= hour < 14
    ensures r == "open" || r == "closed"
  {
    if 9 <= hour < 14 then "open" else "closed"
  }

  datatype Overview = Overview(tunindex: Tunindex, marketStatus: string, lastUpdate: string)

  /** get_market_overview; the clock gives the hour and the timestamp. */
  function MarketOverview(page: Option<IndexPage>, hour: int, now: string): (r: Overview)
    ensures r.tunindex == GetTunindex(page, now)
    ensures r.marketStatus == "open" <==> 9 <= hour < 14
    ensures r.lastUpdate == now
  {
    Overview(GetTunindex(page, now), MarketStatus(hour), now)
  }

  // ---------------------------------------------------------------------
  // Stock quote

  /** The quote dictionary; a key the page did not provide is None. */
  datatype Quote = Quote(code: string, price: Option<real>, open: Option<real>, high: Option<real>,
                         low: Option<real>, volume: Option<int>, changePct: Option<real>,
                         error: Option<string>, timestamp: string)

  /** The price element's stripped text, when found, and the stripped texts
      of the `td` cells of every `table tr`. */
  datatype QuotePage = QuotePage(priceText: Option<string>, rows: seq<seq<string>>)

  /** _fallback_quote. */
  function FallbackQuote(code: string, now: string): (r: Quote)
    ensures r.code == code && r.error == Some("Data unavailable")
    ensures r.price.None? && r.open.None? && r.high.None? && r.low.None? && r.volume.None? && r.changePct.None?
  {
    Quote(code, None, None, None, None, None, None, Some("Data unavailable"), now)
  }

  /** Which key a table row fills, from its lowercased label. */
  datatype Field = Open | High | Low | Volume | Change | Other

  /** The first label test that holds, in the source's order. */
  function FieldOf(name: string): (r: Field)
    ensures r == Open <==> (Contains(name, "ouverture") || Contains(name, "open"))
    ensures r == High <==>
      (!(Contains(name, "ouverture") || Contains(name, "open")) && (Contains(name, "haut") || Contains(name, "high")))
    ensures r == Other <==>
      (!Contains(name, "ouverture") && !Contains(name, "open")
       && !Contains(name, "haut") && !Contains(name, "high")
       && !Contains(name, "bas") && !Contains(name, "low")
       && !Contains(name, "volume")
       && !Contains(name, "variation") && !Contains(name, "change"))
  {
    if Contains(name, "ouverture") || Contains(name, "open") then Open
    else if Contains(name, "haut") || Contains(name, "high") then High
    else if Contains(name, "bas") || Contains(name, "low") then Low
    else if Contains(name, "volume") then Volume
    else if Contains(name, "variation") || Contains(name, "change") then Change
    else Other
  }

  /** Every label that mentions the opening price is read as the open, even
      when it also mentions another field. */
  lemma OpenComesFirst(name: string)
    requires Contains(name, "open")
    ensures FieldOf(name) == Open
  {
  }

  /** A price-like cell: the first `\d+[,.]?\d*` match. */
  function PriceCell(text: string): Parsed<real>
  {
    var m := MatchUnsigned(text);
    if m.None? then Absent else FloatOf(Some(Replace(m.value, ',', '.')))
  }

  /** A price-like cell never raises. */
  lemma PriceCellNeverInvalid(text: string)
    ensures !PriceCell(text).Invalid?
  {
    if MatchUnsigned(text).Some? {
      UnsignedMatchParses(text);
    }
  }

  /** The volume cell: spaces removed, the first `[\d\s]+` run, spaces
      removed, then int(). */
  function VolumeCell(text: string): Parsed<int>
  {
    var m := MatchRun(Remove(text, ' '));
    if m.None? then Absent
    else
      var n := PyInt(Remove(m.value, ' '));
      if n.None? then Invalid else Value(n.value)
  }

  /** The change cell: the first `[+-]?\d+[,.]?\d*` match. */
  function ChangeCell(text: string): Parsed<real>
  {
    IndexChange(Some(text))
  }

  /** One table row applied to the dictionary; None is a ValueError. */
  function ApplyRow(data: Quote, cells: seq<string>): (r: Option<Quote>)
    ensures r.Some? ==> r.value.code == data.code && r.value.error == data.error && r.value.price == data.price
  {
    if |cells| < 2 then Some(data)
    else
      var text := cells[1];
      match FieldOf(Lower(cells[0]))
      case Open => Store(PriceCell(text), data, (v: real) => data.(open := Some(v)))
      case High => Store(PriceCell(text), data, (v: real) => data.(high := Some(v)))
      case Low => Store(PriceCell(text), data, (v: real) => data.(low := Some(v)))
      case Volume =>
        var p := VolumeCell(text);
        if p.Invalid? then None else if p.Absent? then Some(data) else Some(data.(volume := Some(p.v)))
      case Change => Store(ChangeCell(text), data, (v: real) => data.(changePct := Some(v)))
      case Other => Some(data)
  }

  /** A parsed cell stored by `put`, an absent one leaving `data` as it is. */
  function Store(p: Parsed<real>, data: Quote, put: real -> Quote): (r: Option<Quote>)
    ensures p.Absent? ==> r == Some(data)
    ensures p.Value? ==> r == Some(put(p.v))
    ensures p.Invalid? <==> r.None?
  {
    match p
    case Absent => Some(data)
    case Value(v) => Some(put(v))
    case Invalid => None
  }

  /** The dictionary after the rows, in order; None once a row raises. */
  function RowsApplied(data: Quote, rows: seq<seq<string>>): (r: Option<Quote>)
    ensures r.Some? ==> r.value.code == data.code && r.value.error == data.error && r.value.price == data.price
  {
    if |rows| == 0 then Some(data)
    else
      var front := RowsApplied(data, rows[..|rows| - 1]);
      if front.None? then None else ApplyRow(front.value, rows[|rows| - 1])
  }

  /** The dictionary before the rows: code, timestamp and the price. */
  function Initial(code: string, priceText: Option<string>, now: string): (r: Option<Quote>)
  {
    var price := if priceText.None? then Absent else PriceCell(Remove(priceText.value, ' '));
    if price.Invalid? then None
    else Some(Quote(code, if price.Value? then Some(price.v) else None, None, None, None, None, None, None, now))
  }

  /** get_stock_quote, as a function. */
  function QuoteOf(code: string, page: Option<QuotePage>, now: string): (r: Quote)
    ensures r.code == code
    ensures page.None? ==> r == FallbackQuote(code, now)
  {
    if page.None? then FallbackQuote(code, now)
    else
      var init := Initial(code, page.value.priceText, now);
      if init.None? then FallbackQuote(code, now)
      else
        var r := RowsApplied(init.value, page.value.rows);
        if r.None? then FallbackQuote(code, now) else r.value
  }

  /** get_stock_quote: fills the dictionary row by row; a ValueError gives
      the fallback quote. */
  method GetStockQuote(code: string, page: Option<QuotePage>, now: string) returns (q: Quote)
    ensures q == QuoteOf(code, page, now)
  {
    if page.None? {
      return FallbackQuote(code, now);
    }
    var init := Initial(code, page.value.priceText, now);
    if init.None? {
      return FallbackQuote(code, now);
    }
    var rows := page.value.rows;
    var data := init.value;
    for i := 0 to |rows|
      invariant RowsApplied(init.value, rows[..i]) == Some(data)
    {
      assert rows[..i + 1][..i] == rows[..i];
      var next := ApplyRow(data, rows[i]);
      if next.None? {
        assert RowsApplied(init.value, rows[..i + 1]).None?;
        NoneStays(init.value, rows, i + 1);
        assert rows[..|rows|] == rows;
        return FallbackQuote(code, now);
      }
      data := next.value;
    }
    assert rows[..|rows|] == rows;
    q := data;
  }

  /** Once a row has raised, later rows do not matter. */
  lemma {:induction false} NoneStays(data: Quote, rows: seq<seq<string>>, i: nat)
    requires i <= |rows| && RowsApplied(data, rows[..i]).None?
    ensures RowsApplied(data, rows).None?
    decreases |rows| - i
  {
    if i < |rows| {
      assert rows[..i + 1][..i] == rows[..i];
      NoneStays(data, rows, i + 1);
    } else {
      assert rows[..i] == rows;
    }
  }

  /** A row raises only when it is a volume row whose run is not an
      integer: price, open, high, low and change cells always parse. */
  lemma ApplyRowRaisesOnVolume(data: Quote, cells: seq<string>)
    ensures ApplyRow(data, cells).None? <==>
      |cells| >= 2 && FieldOf(Lower(cells[0])) == Volume && VolumeCell(cells[1]).Invalid?
  {
    if |cells| >= 2 {
      PriceCellNeverInvalid(cells[1]);
      IndexChangeNeverInvalid(Some(cells[1]));
    }
  }

  /** A fetched page falls back to the "Data unavailable" quote exactly when
      some volume row does not read as an integer. */
  lemma {:induction false} QuoteFallsBackOnVolume(code: string, page: QuotePage, now: string)
    ensures QuoteOf(code, Some(page), now).error.Some? <==> exists c :: c in page.rows && BadVolumeRow(c)
  {
    if page.priceText.Some? {
      PriceCellNeverInvalid(Remove(page.priceText.value, ' '));
    }
    var init := Initial(code, page.priceText, now).value;
    RowsRaise(init, page.rows);
    CountPositive(page.rows, BadVolumeRow);
  }

  /** A volume row whose run is not an integer. */
  predicate BadVolumeRow(cells: seq<string>)
  {
    |cells| >= 2 && FieldOf(Lower(cells[0])) == Volume && VolumeCell(cells[1]).Invalid?
  }

  lemma {:induction false} RowsRaise(data: Quote, rows: seq<seq<string>>)
    ensures RowsApplied(data, rows).None? <==> Count(rows, BadVolumeRow) > 0
  {
    if |rows| > 0 {
      RowsRaise(data, rows[..|rows| - 1]);
      RowsStep(data, rows);
    }
  }

  lemma {:induction false} RowsStep(data: Quote, rows: seq<seq<string>>)
    requires |rows| > 0
    ensures RowsApplied(data, rows).None? <==>
      RowsApplied(data, rows[..|rows| - 1]).None? || BadVolumeRow(rows[|rows| - 1])
  {
    var f := RowsApplied(data, rows[..|rows| - 1]);
    if f.Some? {
      ApplyRowRaisesOnVolume(f.value, rows[|rows| - 1]);
    }
  }

  /** A quote read from a page never carries the error, unless it is the
      fallback; a row with another label or fewer than two cells changes
      nothing. */
  lemma QuoteRowFacts(data: Quote, cells: seq<string>)
    ensures |cells| < 2 ==> ApplyRow(data, cells) == Some(data)
    ensures |cells| >= 2 && FieldOf(Lower(cells[0])) == Other ==> ApplyRow(data, cells) == Some(data)
    ensures |cells| >= 2 && FieldOf(Lower(cells[0])) == Open && PriceCell(cells[1]).Value? ==>
      ApplyRow(data, cells) == Some(data.(open := Some(PriceCell(cells[1]).v)))
    ensures |cells| >= 2 && FieldOf(Lower(cells[0])) == Volume && VolumeCell(cells[1]).Value? ==>
      ApplyRow(data, cells) == Some(data.(volume := Some(VolumeCell(cells[1]).v)))
  {
  }

  // ---------------------------------------------------------------------
  // Top movers

  /** A `td` cell: its stripped text and the text of its first link. */
  datatype Cell = Cell(text: string, anchor: Option<string>)

  /** A `table`: the text of the nearest preceding heading, when there is
      one, and its rows of cells. */
  datatype Table = Table(header: Option<string>, rows: seq<seq<Cell>>)

  datatype Mover = Mover(code: string, price: real, changePct: real)

  datatype Movers = Movers(gainers: seq<Mover>, losers: seq<Mover>, timestamp: string)

  /** The rows a table contributes: `rows[1:limit+1]`. */
  function MoverRows(t: Table, limit: nat): (r: seq<seq<Cell>>)
    ensures |r| <= limit
    ensures |r| == 0 || |r| < |t.rows|
    ensures forall k :: 0 <= k < |r| ==> r[k] == t.rows[k + 1]
  {
    if |t.rows| <= 1 then [] else t.rows[1..MinInt(limit + 1, |t.rows|)]
  }

  /** The stock data of a row of at least three cells; a missing match is 0.
      The price and change matches always read as floats. */
  function MoverOf(cells: seq<Cell>): (r: Mover)
    requires |cells| >= 3
    ensures r.code == cells[0].anchor.GetOr(cells[0].text)
  {
    var price := PriceCell(cells[1].text);
    var change := ChangeCell(cells[2].text);
    PriceCellNeverInvalid(cells[1].text);
    IndexChangeNeverInvalid(Some(cells[2].text));
    Mover(cells[0].anchor.GetOr(cells[0].text),
          if price.Value? then price.v else 0.0,
          if change.Value? then change.v else 0.0)
  }

  predicate IsGainers(header: string)
  {
    Contains(header, "hausse") || Contains(header, "gainer")
  }

  predicate IsLosers(header: string)
  {
    Contains(header, "baisse") || Contains(header, "loser")
  }

  function HeaderText(t: Table): string
  {
    Lower(t.header.GetOr(""))
  }

  /** The movers a row list contributes, in order. */
  function RowMovers(rows: seq<seq<Cell>>): (r: seq<Mover>)
    ensures |r| <= |rows|
  {
    if |rows| == 0 then []
    else
      var front := RowMovers(rows[..|rows| - 1]);
      var cells := rows[|rows| - 1];
      if |cells| >= 3 then front + [MoverOf(cells)] else front
  }

  /** Gainers and losers before truncation, table by table. */
  function Collected(tables: seq<Table>, limit: nat): (r: (seq<Mover>, seq<Mover>))
  {
    if |tables| == 0 then ([], [])
    else
      var front := Collected(tables[..|tables| - 1], limit);
      var t := tables[|tables| - 1];
      var movers := RowMovers(MoverRows(t, limit));
      if IsGainers(HeaderText(t)) then (front.0 + movers, front.1)
      else if IsLosers(HeaderText(t)) then (front.0, front.1 + movers)
      else front
  }

  /** get_top_movers, as a function. */
  function TopMoversOf(tables: Option<seq<Table>>, limit: nat, now: string): (r: Movers)
    ensures |r.gainers| <= limit && |r.losers| <= limit
    ensures tables.None? ==> r.gainers == [] && r.losers == []
  {
    if tables.None? then Movers([], [], now)
    else
      var c := Collected(tables.value, limit);
      Movers(Take(c.0, limit), Take(c.1, limit), now)
  }

  /** get_top_movers: the tables and their rows in order, appending each
      row's stock data to the gainers or the losers. */
  method GetTopMovers(tables: Option<seq<Table>>, limit: nat, now: string) returns (r: Movers)
    ensures r == TopMoversOf(tables, limit, now)
  {
    var gainers: seq<Mover> := [];
    var losers: seq<Mover> := [];
    if tables.Some? {
      var ts := tables.value;
      for i := 0 to |ts|
        invariant (gainers, losers) == Collected(ts[..i], limit)
      {
        assert ts[..i + 1][..i] == ts[..i];
        gainers, losers := CollectTable(ts[i], limit, gainers, losers);
      }
      assert ts[..|ts|] == ts;
    }
    r := Movers(Take(gainers, limit), Take(losers, limit), now);
  }

  /** The rows of one table: each row with at least three cells is
      appended to the gainers under a "hausse"/"gainer" header, else to the
      losers under a "baisse"/"loser" header. */
  method CollectTable(table: Table, limit: nat, gainers: seq<Mover>, losers: seq<Mover>)
    returns (gainers': seq<Mover>, losers': seq<Mover>)
    ensures var movers := RowMovers(MoverRows(table, limit));
      if IsGainers(HeaderText(table)) then gainers' == gainers + movers && losers' == losers
      else if IsLosers(HeaderText(table)) then gainers' == gainers && losers' == losers + movers
      else gainers' == gainers && losers' == losers
  {
    var header := HeaderText(table);
    var rows := MoverRows(table, limit);
    gainers', losers' := gainers, losers;
    for k := 0 to |rows|
      invariant IsGainers(header) ==> gainers' == gainers + RowMovers(rows[..k]) && losers' == losers
      invariant !IsGainers(header) && IsLosers(header) ==> losers' == losers + RowMovers(rows[..k]) && gainers' == gainers
      invariant !IsGainers(header) && !IsLosers(header) ==> gainers' == gainers && losers' == losers
    {
      assert rows[..k + 1][..k] == rows[..k];
      var cells := rows[k];
      if |cells| >= 3 {
        var m := MoverOf(cells);
        if IsGainers(header) {
          gainers' := gainers' + [m];
        } else if IsLosers(header) {
          losers' := losers' + [m];
        }
      }
    }
    assert rows[..|rows|] == rows;
  }

  /** Every gainer comes from a table headed "hausse"/"gainer", every loser
      from one headed "baisse"/"loser" and not "hausse"/"gainer"; a table
      with neither header contributes nothing. */
  lemma {:induction false} CollectedSources(tables: seq<Table>, limit: nat)
    ensures forall m :: m in Collected(tables, limit).0 ==>
      exists t :: t in tables && IsGainers(HeaderText(t)) && m in RowMovers(MoverRows(t, limit))
    ensures forall m :: m in Collected(tables, limit).1 ==>
      exists t :: t in tables && !IsGainers(HeaderText(t)) && IsLosers(HeaderText(t)) && m in RowMovers(MoverRows(t, limit))
  {
    if |tables| > 0 {
      var front := tables[..|tables| - 1];
      CollectedSources(front, limit);
      assert forall t :: t in front ==> t in tables;
      assert tables[|tables| - 1] in tables;
    }
  }

  /** A table whose header names neither list is skipped. */
  lemma NeutralTableSkipped(tables: seq<Table>, t: Table, limit: nat)
    requires !IsGainers(HeaderText(t)) && !IsLosers(HeaderText(t))
    ensures Collected(tables + [t], limit) == Collected(tables, limit)
  {
    assert (tables + [t])[..|tables|] == tables;
  }
}
