/** The portfolio endpoints: the user's positions valued at the latest
    close, buying (always a new position) and selling from the oldest
    position of a stock. */
module PortfolioRoutes {
  import opened Common

  datatype HttpError = HttpError(status: nat, detail: string)

  /** A row of the portfolio table. */
  datatype Position = Position(id: nat, userId: string, stockCode: string, quantity: int,
                               avgBuyPrice: real, createdAt: int)

  datatype TradeRequest = TradeRequest(stockCode: string, quantity: int, price: real)

  /** The request schema's `gt=0` constraints on quantity and price. */
  function ValidateTrade(req: TradeRequest): (r: Result<TradeRequest, HttpError>)
    ensures r.Ok? <==> req.quantity > 0 && req.price > 0.0
    ensures r.Ok? ==> r.value == req
    ensures r.Err? ==> r.error.status == 422
  {
    if req.quantity > 0 && req.price > 0.0 then Ok(req)
    else Err(HttpError(422, "Input should be greater than 0"))
  }

  predicate Owns(p: Position, user: string, code: string)
  {
    p.userId == user && p.stockCode == code
  }

  /** The index of the position the sell query returns first: the user's
      position in `code` with the earliest creation time, the earliest row
      among equal times. */
  function Oldest(ps: seq<Position>, user: string, code: string): (r: Option<nat>)
    ensures r.None? <==> forall j :: 0 <= j < |ps| ==> !Owns(ps[j], user, code)
    ensures r.Some? ==> r.value < |ps| && Owns(ps[r.value], user, code)
    ensures r.Some? ==> forall j :: 0 <= j < |ps| && Owns(ps[j], user, code) ==> ps[r.value].createdAt <= ps[j].createdAt
    ensures r.Some? ==> forall j :: 0 <= j < r.value && Owns(ps[j], user, code) ==> ps[r.value].createdAt < ps[j].createdAt
  {
    if |ps| == 0 then None
    else
      var front := ps[..|ps| - 1];
      var last := ps[|ps| - 1];
      var f := Oldest(front, user, code);
      assert forall j :: 0 <= j < |front| ==> front[j] == ps[j];
      if !Owns(last, user, code) then f
      else if f.Some? && ps[f.value].createdAt <= last.createdAt then f
      else Some(|ps| - 1)
  }

  /** The shares of `code` the user holds over all positions. */
  function Shares(ps: seq<Position>, user: string, code: string): int
  {
    if |ps| == 0 then 0
    else Shares(ps[..|ps| - 1], user, code) + (if Owns(ps[|ps| - 1], user, code) then ps[|ps| - 1].quantity else 0)
  }

  /** Every stored position holds at least one share. */
  predicate AllPositive(ps: seq<Position>)
  {
    forall i :: 0 <= i < |ps| ==> ps[i].quantity > 0
  }

  /** The table after selling `req` for `user`. */
  function SellSpec(ps: seq<Position>, user: string, req: TradeRequest): (r: Result<seq<Position>, HttpError>)
    ensures Oldest(ps, user, req.stockCode).None? ==> r == Err(HttpError(404, "Position not found"))
    ensures Oldest(ps, user, req.stockCode).Some? ==>
      (r.Err? <==> ps[Oldest(ps, user, req.stockCode).value].quantity < req.quantity)
    ensures r.Err? ==> r.error.status in {400, 404}
  {
    match Oldest(ps, user, req.stockCode)
    case None => Err(HttpError(404, "Position not found"))
    case Some(i) =>
      if ps[i].quantity < req.quantity then Err(HttpError(400, "Insufficient quantity"))
      else if ps[i].quantity == req.quantity then Ok(ps[..i] + ps[i + 1..])
      else Ok(ps[i := ps[i].(quantity := ps[i].quantity - req.quantity)])
  }

  /** The position a buy inserts. */
  function NewPosition(id: nat, user: string, req: TradeRequest, now: int): (p: Position)
    ensures Owns(p, user, req.stockCode) && p.quantity == req.quantity && p.avgBuyPrice == req.price
  {
    Position(id, user, req.stockCode, req.quantity, req.price, now)
  }

  /** One row of the portfolio listing. */
  datatype Holding = Holding(position: Position, currentPrice: Option<real>, currentValue: Option<real>)

  /** The listing row of one position: valued only when there is a non-zero
      latest close. */
  function HoldingOf(p: Position, close: Option<real>): (h: Holding)
    ensures h.position == p && h.currentPrice == close
    ensures h.currentValue.Some? <==> close.Some? && close.value != 0.0
    ensures h.currentValue.Some? ==> h.currentValue.value == close.value * (p.quantity as real)
  {
    Holding(p, close, if close.Some? && close.value != 0.0 then Some(close.value * (p.quantity as real)) else None)
  }

  /** The listing of the user's positions in table order. */
  function Listing(ps: seq<Position>, user: string, closeOf: string -> Option<real>): seq<Holding>
  {
    if |ps| == 0 then []
    else
      var last := ps[|ps| - 1];
      Listing(ps[..|ps| - 1], user, closeOf) + (if last.userId == user then [HoldingOf(last, closeOf(last.stockCode))] else [])
  }

  /** The listing holds each of the user's positions once, in table order,
      valued at its stock's latest close, and nothing else. */
  lemma {:induction false} ListingFacts(ps: seq<Position>, user: string, closeOf: string -> Option<real>)
    ensures |Listing(ps, user, closeOf)| <= |ps|
    ensures forall k :: 0 <= k < |Listing(ps, user, closeOf)| ==>
      Listing(ps, user, closeOf)[k].position.userId == user && Listing(ps, user, closeOf)[k].position in ps
      && Listing(ps, user, closeOf)[k] == HoldingOf(Listing(ps, user, closeOf)[k].position,
                                                    closeOf(Listing(ps, user, closeOf)[k].position.stockCode))
    ensures forall i :: 0 <= i < |ps| && ps[i].userId == user ==>
      exists k :: 0 <= k < |Listing(ps, user, closeOf)| && Listing(ps, user, closeOf)[k].position == ps[i]
  {
    if |ps| > 0 {
      var front := ps[..|ps| - 1];
      ListingFacts(front, user, closeOf);
      var f := Listing(front, user, closeOf);
      var r := Listing(ps, user, closeOf);
      assert forall k :: 0 <= k < |f| ==> r[k] == f[k];
      forall k | 0 <= k < |r| ensures r[k].position in ps {
        if k < |f| {
          var j :| 0 <= j < |front| && front[j] == f[k].position;
          assert ps[j] == front[j];
        }
      }
      forall i | 0 <= i < |ps| && ps[i].userId == user
        ensures exists k :: 0 <= k < |r| && r[k].position == ps[i]
      {
        if i < |front| {
          assert ps[i] == front[i];
          var k :| 0 <= k < |f| && f[k].position == front[i];
          assert r[k] == f[k];
        } else {
          assert r[|f|].position == ps[i];
        }
      }
    }
  }

  /** The portfolio table. */
  class PortfolioTable {
    var positions: seq<Position>
    var nextId: nat

    /** Ids are below the next one to hand out and no position is empty. */
    predicate Valid()
      reads this
    {
      AllPositive(positions) && forall i :: 0 <= i < |positions| ==> positions[i].id < nextId
    }

    constructor()
      ensures positions == [] && nextId == 1 && Valid()
    {
      positions := [];
      nextId := 1;
    }

    /** portfolio: the user's positions, in table order, with their value. */
    method List(user: string, closeOf: string -> Option<real>) returns (results: seq<Holding>)
      ensures results == Listing(positions, user, closeOf)
    {
      results := [];
      for i := 0 to |positions|
        invariant results == Listing(positions[..i], user, closeOf)
      {
        assert positions[..i + 1][..i] == positions[..i];
        var position := positions[i];
        if position.userId != user {
          continue;
        }
        var currentPrice := closeOf(position.stockCode);
        results := results + [HoldingOf(position, currentPrice)];
      }
      assert positions[..|positions|] == positions;
    }

    /** buy_stock: a new position at the request's price; returns its id. */
    method Buy(user: string, req: TradeRequest, now: int) returns (positionId: nat)
      requires Valid() && req.quantity > 0
      modifies this
      ensures Valid()
      ensures positionId == old(nextId) && nextId == old(nextId) + 1
      ensures positions == old(positions) + [NewPosition(positionId, user, req, now)]
    {
      var position := NewPosition(nextId, user, req, now);
      positions := positions + [position];
      positionId := nextId;
      nextId := nextId + 1;
    }

    /** sell_stock. */
    method Sell(user: string, req: TradeRequest) returns (r: Result<(), HttpError>)
      requires Valid() && req.quantity > 0
      modifies this
      ensures Valid() && nextId == old(nextId)
      ensures SellSpec(old(positions), user, req).Ok? ==> r.Ok? && positions == SellSpec(old(positions), user, req).value
      ensures SellSpec(old(positions), user, req).Err? ==>
        r == Err(SellSpec(old(positions), user, req).error) && positions == old(positions)
    {
      var found := Oldest(positions, user, req.stockCode);
      if found.None? {
        return Err(HttpError(404, "Position not found"));
      }
      var i := found.value;
      if positions[i].quantity < req.quantity {
        return Err(HttpError(400, "Insufficient quantity"));
      }
      SellKeepsPositive(positions, user, req);
      positions := SellSpec(positions, user, req).value;
      r := Ok(());
    }
  }

  /** A successful sell leaves only non-empty positions. */
  lemma SellKeepsPositive(ps: seq<Position>, user: string, req: TradeRequest)
    requires AllPositive(ps)
    requires SellSpec(ps, user, req).Ok?
    ensures AllPositive(SellSpec(ps, user, req).value)
    ensures forall p :: p in SellSpec(ps, user, req).value ==> exists q :: q in ps && q.id == p.id
  {
    var i := Oldest(ps, user, req.stockCode).value;
    var r := SellSpec(ps, user, req).value;
    if ps[i].quantity == req.quantity {
      assert forall j :: 0 <= j < |r| ==> r[j] == (if j < i then ps[j] else ps[j + 1]);
    } else {
      forall p | p in r ensures exists q :: q in ps && q.id == p.id {
        var j :| 0 <= j < |r| && r[j] == p;
        assert ps[j].id == p.id;
      }
    }
  }

  lemma {:induction false} SharesSplit(ps: seq<Position>, i: nat, user: string, code: string)
    requires i < |ps|
    ensures Shares(ps, user, code)
      == Shares(ps[..i], user, code) + (if Owns(ps[i], user, code) then ps[i].quantity else 0) + Shares(ps[i + 1..], user, code)
    decreases |ps|
  {
    if i < |ps| - 1 {
      var front := ps[..|ps| - 1];
      SharesSplit(front, i, user, code);
      assert front[..i] == ps[..i];
      assert front[i + 1..] + [ps[|ps| - 1]] == ps[i + 1..];
      SharesAppend(front[i + 1..], ps[|ps| - 1], user, code);
    } else {
      assert ps[..i] == ps[..|ps| - 1];
      assert ps[i + 1..] == [];
    }
  }

  lemma SharesAppend(ps: seq<Position>, p: Position, user: string, code: string)
    ensures Shares(ps + [p], user, code) == Shares(ps, user, code) + (if Owns(p, user, code) then p.quantity else 0)
  {
    assert (ps + [p])[..|ps|] == ps;
  }

  lemma {:induction false} SharesConcat(a: seq<Position>, b: seq<Position>, user: string, code: string)
    ensures Shares(a + b, user, code) == Shares(a, user, code) + Shares(b, user, code)
    decreases |b|
  {
    if |b| > 0 {
      var bf := b[..|b| - 1];
      SharesConcat(a, bf, user, code);
      assert a + b == (a + bf) + [b[|b| - 1]];
      SharesAppend(a + bf, b[|b| - 1], user, code);
      SharesAppend(bf, b[|b| - 1], user, code);
      assert bf + [b[|b| - 1]] == b;
    } else {
      assert a + b == a;
    }
  }

  /** Selling removes exactly the requested shares from the user's holding
      of that stock and leaves every other holding as it was. */
  lemma SellConservesShares(ps: seq<Position>, user: string, req: TradeRequest, otherUser: string, otherCode: string)
    requires SellSpec(ps, user, req).Ok?
    requires otherUser != user || otherCode != req.stockCode
    ensures Shares(SellSpec(ps, user, req).value, user, req.stockCode) == Shares(ps, user, req.stockCode) - req.quantity
    ensures Shares(SellSpec(ps, user, req).value, otherUser, otherCode) == Shares(ps, otherUser, otherCode)
  {
    var i := Oldest(ps, user, req.stockCode).value;
    var r := SellSpec(ps, user, req).value;
    SharesSplit(ps, i, user, req.stockCode);
    SharesSplit(ps, i, otherUser, otherCode);
    if ps[i].quantity == req.quantity {
      SharesConcat(ps[..i], ps[i + 1..], user, req.stockCode);
      SharesConcat(ps[..i], ps[i + 1..], otherUser, otherCode);
    } else {
      SharesSplit(r, i, user, req.stockCode);
      SharesSplit(r, i, otherUser, otherCode);
      assert r[..i] == ps[..i] && r[i + 1..] == ps[i + 1..];
    }
  }

  /** Buying adds exactly the requested shares to the user's holding. */
  lemma BuyAddsShares(ps: seq<Position>, id: nat, user: string, req: TradeRequest, now: int)
    ensures Shares(ps + [NewPosition(id, user, req, now)], user, req.stockCode) == Shares(ps, user, req.stockCode) + req.quantity
  {
    SharesAppend(ps, NewPosition(id, user, req, now), user, req.stockCode);
  }

  /** Only the oldest position is consulted: a user holding 5 + 5 shares in
      two positions cannot sell 6 in one request. */
  lemma SellLooksAtOnePosition()
    ensures var ps := [Position(1, "u", "SFBT", 5, 10.0, 1), Position(2, "u", "SFBT", 5, 12.0, 2)];
      Shares(ps, "u", "SFBT") == 10
      && SellSpec(ps, "u", TradeRequest("SFBT", 6, 11.0)) == Err(HttpError(400, "Insufficient quantity"))
  {
    var ps := [Position(1, "u", "SFBT", 5, 10.0, 1), Position(2, "u", "SFBT", 5, 12.0, 2)];
    assert ps[..1] == [ps[0]];
    assert Oldest(ps, "u", "SFBT") == Some(0);
  }
}
