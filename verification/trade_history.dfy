/** The newest-first list of recorded trades: submission prepends, deletion filters by id. */
module TradeHistory {
  import opened Wrappers
  import opened TradeTypes
  import opened TradeCalculator

  /** What a submission leaves behind: the new list, the recorded trade and its calculation. */
  datatype SubmitOutcome = SubmitOutcome(
    trades: seq<Trade>,
    current: Trade,
    calculation: Result<TradeCalculation, CalcError>)

  /** No trade in the list carries this id. */
  predicate IdAbsent(trades: seq<Trade>, id: string)
  {
    forall t :: t in trades ==> t.id != id
  }

  /** Number of trades in the list carrying this id. */
  function CountId(trades: seq<Trade>, id: string): (n: nat)
    ensures n <= |trades|
  {
    if |trades| == 0 then 0
    else (if trades[0].id == id then 1 else 0) + CountId(trades[1..], id)
  }

  /** Records a submitted trade under the given id and timestamp, newest first, and computes it. */
  function HandleTradeSubmit(trades: seq<Trade>, data: TradeData, id: string, timestamp: int): (r: SubmitOutcome)
    ensures |r.trades| == |trades| + 1
    ensures r.trades[0] == r.current && r.trades[1..] == trades
    ensures r.current.data == data && r.current.id == id && r.current.timestamp == timestamp
    ensures r.calculation == CalculateTrade(data)
  {
    var trade := Trade(id, timestamp, data);
    SubmitOutcome([trade] + trades, trade, CalculateTrade(data))
  }

  /** Keeps, in order, every trade whose id differs from the given one. */
  function DeleteTrade(trades: seq<Trade>, id: string): (r: seq<Trade>)
    ensures forall t :: t in r ==> t in trades && t.id != id
    ensures forall t :: t in trades && t.id != id ==> t in r
    ensures |r| == |trades| - CountId(trades, id)
  {
    if |trades| == 0 then []
    else
      var rest := DeleteTrade(trades[1..], id);
      assert forall t :: t in trades[1..] ==> t in trades;
      assert trades == [trades[0]] + trades[1..];
      if trades[0].id == id then rest else [trades[0]] + rest
  }

  /** Deleting an id that is not in the list changes nothing. */
  lemma {:induction false} DeleteAbsentIsIdentity(trades: seq<Trade>, id: string)
    requires IdAbsent(trades, id)
    ensures DeleteTrade(trades, id) == trades
  {
    if |trades| > 0 {
      assert trades[0] in trades;
      assert IdAbsent(trades[1..], id) by {
        forall t | t in trades[1..] ensures t.id != id {
          assert t in trades;
        }
      }
      DeleteAbsentIsIdentity(trades[1..], id);
      assert trades == [trades[0]] + trades[1..];
    }
  }

  /** Deleting twice is deleting once. */
  lemma DeleteIdempotent(trades: seq<Trade>, id: string)
    ensures DeleteTrade(DeleteTrade(trades, id), id) == DeleteTrade(trades, id)
  {
  }

  /** Deletion works piecewise over a concatenation, so the survivors keep their relative order. */
  lemma {:induction false} DeleteDistributes(a: seq<Trade>, b: seq<Trade>, id: string)
    ensures DeleteTrade(a + b, id) == DeleteTrade(a, id) + DeleteTrade(b, id)
  {
    if |a| == 0 {
      assert a + b == b;
    } else {
      assert (a + b)[1..] == a[1..] + b;
      assert (a + b)[0] == a[0];
      DeleteDistributes(a[1..], b, id);
    }
  }

  /** Deleting the trade just submitted under a fresh id restores the previous list. */
  lemma DeleteUndoesSubmit(trades: seq<Trade>, data: TradeData, id: string, timestamp: int)
    requires IdAbsent(trades, id)
    ensures DeleteTrade(HandleTradeSubmit(trades, data, id, timestamp).trades, id) == trades
  {
    var r := HandleTradeSubmit(trades, data, id, timestamp);
    DeleteDistributes([r.current], trades, id);
    assert [r.current] + trades == r.trades;
    DeleteAbsentIsIdentity(trades, id);
  }
}
