/**
 * The trading-pair list every order-book data source keeps
 * (`OrderBookTrackerDataSource._trading_pairs`): `add_trading_pair` appends a
 * pair only when it is absent, `remove_trading_pair` removes it when present
 * and is silent otherwise. The base class itself is not part of this model;
 * its behaviour is the one its tests pin down.
 */
module DataSourcePairs {
  import opened Wrappers
  import PairLists

  /** `add_trading_pair`: the pair is counted once more only when it was missing. */
  function Added(pairs: seq<string>, pair: string): (r: seq<string>)
    ensures multiset(r) == multiset(pairs) + (if pair in pairs then multiset{} else multiset{pair})
  {
    PairLists.AppendIfAbsent(pairs, pair)
  }

  /** `remove_trading_pair`: one occurrence of the pair goes, if there is one. */
  function Removed(pairs: seq<string>, pair: string): (r: seq<string>)
    ensures multiset(r) == multiset(pairs) - multiset{pair}
  {
    PairLists.RemoveFirstMultiset(pairs, pair);
    if pair in pairs then PairLists.RemoveFirst(pairs, pair) else pairs
  }

  /**
   * Adding keeps the list duplicate-free, grows it by one exactly when the
   * pair is new, and keeps the existing pairs in their order.
   */
  lemma AddedFacts(pairs: seq<string>, pair: string)
    requires PairLists.NoDuplicates(pairs)
    ensures var r := Added(pairs, pair);
            && PairLists.NoDuplicates(r)
            && pair in r
            && |r| == |pairs| + (if pair in pairs then 0 else 1)
            && r[..|pairs|] == pairs
  {
    PairLists.AppendIfAbsentFacts(pairs, pair);
  }

  /**
   * Removing an absent pair changes nothing; removing a present one takes it
   * out, keeps every other pair in its order, and shrinks the list by one.
   */
  lemma RemovedFacts(pairs: seq<string>, pair: string)
    requires PairLists.NoDuplicates(pairs)
    ensures pair !in pairs ==> Removed(pairs, pair) == pairs
    ensures pair in pairs ==>
              && Removed(pairs, pair) == pairs[..PairLists.FirstIndex(pairs, pair)] + pairs[PairLists.FirstIndex(pairs, pair) + 1..]
              && |Removed(pairs, pair)| == |pairs| - 1
    ensures pair !in Removed(pairs, pair) && PairLists.NoDuplicates(Removed(pairs, pair))
    ensures forall p | p != pair :: p in Removed(pairs, pair) <==> p in pairs
  {
    PairLists.RemoveFirstIsSplice(pairs, pair);
    PairLists.RemoveFirstNoDuplicates(pairs, pair);
  }

  /** Removing the first occurrence of a pair that was just appended to a list without it gives back the list. */
  lemma {:induction false} RemoveFirstOfAppended(pairs: seq<string>, pair: string)
    requires pair !in pairs
    ensures PairLists.RemoveFirst(pairs + [pair], pair) == pairs
    decreases |pairs|
  {
    if pairs == [] {
      assert [pair][1..] == [];
    } else {
      assert (pairs + [pair])[1..] == pairs[1..] + [pair];
      RemoveFirstOfAppended(pairs[1..], pair);
      assert [pairs[0]] + pairs[1..] == pairs;
    }
  }

  /** Adding a new pair and then removing it restores the list exactly. */
  lemma AddThenRemove(pairs: seq<string>, pair: string)
    requires pair !in pairs
    ensures Removed(Added(pairs, pair), pair) == pairs
  {
    RemoveFirstOfAppended(pairs, pair);
  }

  /**
   * `exchange_symbol_associated_to_pair` over a list of pairs: the symbols in
   * the order of the pairs, or `None` when a lookup raises.
   */
  function SymbolsOf(pairs: seq<string>, symbols: map<string, string>): (r: Option<seq<string>>)
    ensures r.Some? <==> forall i | 0 <= i < |pairs| :: pairs[i] in symbols
    ensures r.Some? ==> |r.value| == |pairs| && forall i | 0 <= i < |pairs| :: r.value[i] == symbols[pairs[i]]
    decreases |pairs|
  {
    if pairs == [] then Some([])
    else if pairs[0] !in symbols then None
    else
      match SymbolsOf(pairs[1..], symbols)
      case None => None
      case Some(rest) => Some([symbols[pairs[0]]] + rest)
  }
}
