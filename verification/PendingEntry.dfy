/** The pending-entry queue: sheets waiting for their entry conditions, with a ticker index. */
module PendingEntry {

  /** What the queue needs of a sheet. */
  datatype Sheet = Sheet(id: string, ticker: string, validUntil: int)

  /** An id -> ticker relation with its index by ticker, as a value. Both the queue and the tracker
      keep one. */
  datatype Index = Index(tickers: map<string, string>, byTicker: map<string, set<string>>) {

    /** byTicker is the exact inverse of tickers, without empty entries. */
    ghost predicate Exact() {
      && (forall id :: id in tickers ==> tickers[id] in byTicker && id in byTicker[tickers[id]])
      && (forall t, id :: t in byTicker && id in byTicker[t] ==> id in tickers && tickers[id] == t)
      && (forall t :: t in byTicker ==> byTicker[t] != {})
    }

    function IdsFor(ticker: string): set<string> {
      if ticker in byTicker then byTicker[ticker] else {}
    }

    predicate Has(ticker: string) {
      IdsFor(ticker) != {}
    }

    /** At most one id per ticker. */
    ghost predicate OnePerTicker() {
      forall a, b :: a in tickers && b in tickers && tickers[a] == tickers[b] ==> a == b
    }

    function Add(id: string, ticker: string): Index {
      Index(tickers[id := ticker], byTicker[ticker := IdsFor(ticker) + {id}])
    }

    function Remove(id: string): Index {
      if id !in tickers then this
      else
        var t := tickers[id];
        var ids := IdsFor(t) - {id};
        Index(tickers - {id}, if ids == {} then byTicker - {t} else byTicker[t := ids])
    }
  }

  lemma HasMeaning(ix: Index, ticker: string)
    requires ix.Exact()
    ensures ix.Has(ticker) <==> exists id :: id in ix.tickers && ix.tickers[id] == ticker
    ensures forall id :: id in ix.IdsFor(ticker) <==> id in ix.tickers && ix.tickers[id] == ticker
  {
    if ix.Has(ticker) {
      var id :| id in ix.byTicker[ticker];
      assert id in ix.tickers && ix.tickers[id] == ticker;
    }
  }

  lemma AddExact(ix: Index, id: string, ticker: string)
    requires ix.Exact() && (id in ix.tickers ==> ix.tickers[id] == ticker)
    ensures ix.Add(id, ticker).Exact()
    ensures ix.OnePerTicker() && (forall a :: a in ix.tickers && ix.tickers[a] == ticker ==> a == id) ==>
              ix.Add(id, ticker).OnePerTicker()
  {
  }

  /** Adding keeps the index exact exactly when the id is new or keeps its ticker. */
  lemma AddExactIff(ix: Index, id: string, ticker: string)
    requires ix.Exact()
    ensures ix.Add(id, ticker).Exact() <==> (id in ix.tickers ==> ix.tickers[id] == ticker)
  {
    if id in ix.tickers && ix.tickers[id] != ticker {
      var before := ix.tickers[id];
      var after := ix.Add(id, ticker);
      assert before in after.byTicker && id in after.byTicker[before] && after.tickers[id] != before;
    } else {
      AddExact(ix, id, ticker);
    }
  }

  /** What is indexed has an entry under its ticker. */
  lemma RemoveTracked(ix: Index, id: string)
    requires ix.Exact() && id in ix.tickers
    ensures ix.tickers[id] in ix.byTicker
  {
  }

  lemma RemoveExact(ix: Index, id: string)
    requires ix.Exact()
    ensures ix.Remove(id).Exact() && ix.Remove(id).tickers == ix.tickers - {id}
    ensures ix.OnePerTicker() ==> ix.Remove(id).OnePerTicker()
  {
  }

  lemma Restored(stored: map<string, Sheet>, keys: set<string>, id: string)
    requires id in keys && keys <= stored.Keys
    ensures id !in stored - keys
    ensures (stored - keys)[id := stored[id]] == stored - (keys - {id})
    ensures |keys - {id}| == |keys| - 1
  {
  }

  class PendingEntryQueue {
    var sheets: map<string, Sheet>
    var byTicker: map<string, set<string>>

    ghost function View(): Index
      reads this
    {
      Index(map id | id in sheets :: sheets[id].ticker, byTicker)
    }

    ghost predicate Valid()
      reads this
    {
      && (forall id :: id in sheets ==> sheets[id].id == id)
      && View().Exact()
    }

    constructor ()
      ensures Valid() && sheets == map[]
    {
      sheets, byTicker := map[], map[];
    }

    method ContainsTicker(ticker: string) returns (r: bool)
      requires Valid()
      ensures r <==> exists id :: id in sheets && sheets[id].ticker == ticker
    {
      HasMeaning(View(), ticker);
      assert forall id :: id in sheets ==> View().tickers[id] == sheets[id].ticker;
      r := ticker in byTicker && byTicker[ticker] != {};
    }

    /** New sheet; a sheet id that is already queued is left alone. */
    method Add(sheet: Sheet) returns (added: bool)
      requires Valid()
      modifies this
      ensures Valid()
      ensures added <==> sheet.id !in old(sheets)
      ensures sheets == if added then old(sheets)[sheet.id := sheet] else old(sheets)
      ensures View() == if added then old(View()).Add(sheet.id, sheet.ticker) else old(View())
    {
      if sheet.id in sheets {
        return false;
      }
      AddExact(View(), sheet.id, sheet.ticker);
      sheets := sheets[sheet.id := sheet];
      var ids := if sheet.ticker in byTicker then byTicker[sheet.ticker] else {};
      byTicker := byTicker[sheet.ticker := ids + {sheet.id}];
      assert View().tickers == old(View()).tickers[sheet.id := sheet.ticker];
      return true;
    }

    method Remove(id: string)
      requires Valid()
      modifies this
      ensures Valid()
      ensures sheets == old(sheets) - {id}
      ensures View() == old(View()).Remove(id)
    {
      if id !in sheets {
        assert sheets - {id} == sheets;
        return;
      }
      RemoveExact(View(), id);
      var ticker := sheets[id].ticker;
      sheets := sheets - {id};
      if ticker in byTicker {
        var ids := byTicker[ticker] - {id};
        if ids == {} {
          byTicker := byTicker - {ticker};
        } else {
          byTicker := byTicker[ticker := ids];
        }
      }
      assert View().tickers == old(View()).tickers - {id};
    }

    /** Restore the sheets in the store, keyed by their ids, after a start. */
    method LoadFromRedis(stored: map<string, Sheet>) returns (count: nat)
      requires Valid() && sheets == map[]
      requires forall id :: id in stored ==> stored[id].id == id
      modifies this
      ensures Valid() && sheets == stored && count == |stored|
    {
      hide Index.Exact, Index.Add, View;
      var keys := stored.Keys;
      count := 0;
      while keys != {}
        invariant Valid() && keys <= stored.Keys
        invariant sheets == stored - keys
        invariant count == |stored| - |keys|
        decreases |keys|
      {
        var id :| id in keys;
        var added := Add(stored[id]);
        Restored(stored, keys, id);
        keys := keys - {id};
        count := count + 1;
      }
      assert stored - {} == stored;
    }

    /** Drop every sheet whose entry window has passed; what is left is exactly what is still valid. */
    method PurgeExpired(now: int) returns (removed: nat)
      requires Valid()
      modifies this
      ensures Valid()
      ensures sheets == map id | id in old(sheets) && old(sheets)[id].validUntil > now :: old(sheets)[id]
      ensures removed == |set id | id in old(sheets) && old(sheets)[id].validUntil <= now|
    {
      hide Index.Exact, Index.Remove;
      var expired := set id | id in sheets && sheets[id].validUntil <= now;
      removed := |expired|;
      ghost var all := expired;
      while expired != {}
        invariant Valid() && expired <= all
        invariant sheets == old(sheets) - (all - expired)
        decreases |expired|
      {
        var id :| id in expired;
        Remove(id);
        expired := expired - {id};
        assert old(sheets) - (all - expired) == sheets;
      }
      assert all - expired == all;
    }
  }
}
