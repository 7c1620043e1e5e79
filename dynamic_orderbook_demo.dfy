/**
 * The scheduling core of the dynamic order-book demo strategy
 * (scripts/dynamic_orderbook_demo.py): parsing the configured pair lists,
 * and the tick handler that schedules each configured pair for addition once
 * the add delay has passed and for removal once the remove delay has passed.
 *
 * The asynchronous add and remove tasks themselves are not run: scheduling
 * one appends the pair to `scheduledAdds` or `scheduledRemoves`. The clock is
 * the `now` parameter of each tick.
 */
module DynamicOrderbookDemo {
  import opened Wrappers
  import Strings
  import PairLists

  // ---------------------------------------------------------------------------
  // DynamicOrderbookDemoConfig.parse_trading_pairs
  // ---------------------------------------------------------------------------

  /** The value the validator receives: a string, a set or list of strings, or anything else. */
  datatype RawPairs = Text(s: string) | Collection(items: seq<string>) | OtherValue(tag: string)

  /** What the validator returns: a set of pairs, or the value it did not recognise. */
  datatype ParsedPairs = PairSet(pairs: set<string>) | Unparsed(raw: RawPairs)

  /** The non-blank pieces of `s` between commas, stripped. */
  function CommaSeparated(s: string): set<string> {
    var parts := Strings.Split(s, ',');
    set i | 0 <= i < |parts| && Strings.Strip(parts[i]) != "" :: Strings.Strip(parts[i])
  }

  /**
   * `parse_trading_pairs`: a blank string gives no pairs; any other string
   * gives its stripped, non-empty comma-separated pieces; a set or list gives
   * the set of its elements; anything else comes back unchanged.
   */
  function ParseTradingPairs(v: RawPairs): (r: ParsedPairs)
    ensures v.Text? && Strings.IsBlank(v.s) ==> r == PairSet({})
    ensures v.Text? ==> r.PairSet? && forall p | p in r.pairs :: p != "" && Strings.Strip(p) == p && ',' !in p
    ensures v.Text? ==> forall p ::
              p in r.pairs <==> exists i | 0 <= i < |Strings.Split(v.s, ',')| ::
                                  Strings.Strip(Strings.Split(v.s, ',')[i]) != "" && p == Strings.Strip(Strings.Split(v.s, ',')[i])
    ensures v.Collection? ==> r.PairSet? && forall p :: p in r.pairs <==> p in v.items
    ensures v.OtherValue? ==> r == Unparsed(v)
  {
    match v
    case Text(s) =>
      Strings.StripEmptyIffBlank(s);
      CommaSeparatedClean(s);
      if Strings.Strip(s) == "" then
        BlankHasNoPieces(s);
        PairSet({})
      else
        PairSet(CommaSeparated(s))
    case Collection(items) => PairSet(set p | p in items)
    case OtherValue(_) => Unparsed(v)
  }

  /** Every piece of an all-whitespace string strips to nothing. */
  lemma BlankHasNoPieces(s: string)
    requires Strings.IsBlank(s)
    ensures CommaSeparated(s) == {}
  {
    var parts := Strings.Split(s, ',');
    Strings.SplitOfBlank(s, ',');
    forall i | 0 <= i < |parts| ensures Strings.Strip(parts[i]) == "" {
      Strings.StripEmptyIffBlank(parts[i]);
    }
  }

  /** A comma-separated piece is non-empty, already stripped and comma-free. */
  lemma CommaSeparatedClean(s: string)
    ensures forall p | p in CommaSeparated(s) :: p != "" && Strings.Strip(p) == p && ',' !in p
  {
    var parts := Strings.Split(s, ',');
    forall p | p in CommaSeparated(s) ensures p != "" && Strings.Strip(p) == p && ',' !in p {
      var i :| 0 <= i < |parts| && Strings.Strip(parts[i]) != "" && p == Strings.Strip(parts[i]);
      Strings.StripIdempotent(parts[i]);
      StripKeepsOut(parts[i], ',');
    }
  }

  /** Stripping cannot introduce a character. */
  lemma StripKeepsOut(s: string, c: char)
    requires c !in s
    ensures c !in Strings.Strip(s)
  {
    var r := Strings.Strip(s);
    var i := Strings.LeadingBlanks(s);
    forall k | 0 <= k < |r| ensures r[k] != c {
      assert r[k] == s[i + k];
    }
  }

  /**
   * Any comma-free pieces written comma-separated parse to exactly their
   * stripped forms, leaving out the pieces that are all whitespace.
   */
  lemma ParseJoinedPairs(pieces: seq<string>)
    requires |pieces| >= 1
    requires forall i | 0 <= i < |pieces| :: ',' !in pieces[i]
    ensures ParseTradingPairs(Text(Strings.Join(pieces, ','))) ==
            PairSet(set i | 0 <= i < |pieces| && Strings.Strip(pieces[i]) != "" :: Strings.Strip(pieces[i]))
  {
    Strings.SplitJoin(pieces, ',');
  }

  /**
   * A list of clean pairs (non-empty, no comma, no surrounding whitespace)
   * written comma-separated parses back to exactly the set of those pairs.
   */
  lemma ParseJoinedCleanPairs(pairs: seq<string>)
    requires |pairs| >= 1
    requires forall i | 0 <= i < |pairs| ::
               pairs[i] != "" && ',' !in pairs[i] && !Strings.IsSpace(pairs[i][0]) && !Strings.IsSpace(pairs[i][|pairs[i]| - 1])
    ensures ParseTradingPairs(Text(Strings.Join(pairs, ','))) == PairSet(set p | p in pairs)
  {
    ParseJoinedPairs(pairs);
    forall i | 0 <= i < |pairs| ensures Strings.Strip(pairs[i]) == pairs[i] {
      Strings.StripOfTrimmed(pairs[i]);
    }
    CleanPiecesAreKept(pairs);
  }

  /** Pieces that are non-empty and already stripped are exactly the pieces kept. */
  lemma CleanPiecesAreKept(parts: seq<string>)
    requires forall i | 0 <= i < |parts| :: parts[i] != "" && Strings.Strip(parts[i]) == parts[i]
    ensures (set i | 0 <= i < |parts| && Strings.Strip(parts[i]) != "" :: Strings.Strip(parts[i])) == set p | p in parts
  {
    var kept := set i | 0 <= i < |parts| && Strings.Strip(parts[i]) != "" :: Strings.Strip(parts[i]);
    forall p | p in parts ensures p in kept {
      var i :| 0 <= i < |parts| && parts[i] == p;
      assert Strings.Strip(parts[i]) == p;
    }
  }

  // ---------------------------------------------------------------------------
  // DynamicOrderbookDemo.on_tick
  // ---------------------------------------------------------------------------

  /** The scheduling state of the strategy and the configuration it reads. */
  class DynamicOrderbookDemo {
    const addTradingPairs: set<string>
    const removeTradingPairs: set<string>
    const addPairsDelay: real
    const removePairsDelay: real
    var startTimestamp: Option<real>
    var pairsAdded: set<string>
    var pairsRemoved: set<string>
    /** The `_add_trading_pair` tasks created, in order. */
    var scheduledAdds: seq<string>
    /** The `_remove_trading_pair` tasks created, in order. */
    var scheduledRemoves: seq<string>

    /**
     * Only added pairs are ever removed, and each pair is scheduled at most
     * once for each: the schedules list exactly the recorded sets.
     */
    ghost predicate Valid()
      reads this`pairsAdded, this`pairsRemoved, this`scheduledAdds, this`scheduledRemoves
    {
      && pairsRemoved <= pairsAdded
      && PairLists.NoDuplicates(scheduledAdds) && (forall p :: p in scheduledAdds <==> p in pairsAdded)
      && PairLists.NoDuplicates(scheduledRemoves) && (forall p :: p in scheduledRemoves <==> p in pairsRemoved)
    }

    constructor (addTradingPairs: set<string>, removeTradingPairs: set<string>, addPairsDelay: real, removePairsDelay: real)
      ensures this.addTradingPairs == addTradingPairs && this.removeTradingPairs == removeTradingPairs
      ensures this.addPairsDelay == addPairsDelay && this.removePairsDelay == removePairsDelay
      ensures startTimestamp == None && pairsAdded == {} && pairsRemoved == {}
      ensures Valid() && scheduledAdds == [] && scheduledRemoves == []
    {
      this.addTradingPairs := addTradingPairs;
      this.removeTradingPairs := removeTradingPairs;
      this.addPairsDelay := addPairsDelay;
      this.removePairsDelay := removePairsDelay;
      startTimestamp := None;
      pairsAdded := {};
      pairsRemoved := {};
      scheduledAdds := [];
      scheduledRemoves := [];
    }

    /** `start`: the start time is the clock's time. */
    method Start(timestamp: real)
      modifies this`startTimestamp
      ensures startTimestamp == Some(timestamp)
    {
      startTimestamp := Some(timestamp);
    }

    /** The `all_added` status flag: every configured pair has been added. */
    function AllAdded(): (r: bool)
      reads this`pairsAdded
      ensures r <==> forall p | p in addTradingPairs :: p in pairsAdded
    {
      addTradingPairs <= pairsAdded
    }

    /** The `all_removed` status flag: every configured pair has been removed. */
    function AllRemoved(): (r: bool)
      reads this`pairsRemoved
      ensures r <==> forall p | p in removeTradingPairs :: p in pairsRemoved
    {
      removeTradingPairs <= pairsRemoved
    }

    /**
     * `on_tick`: the first tick without a start time starts the clock. Once
     * the add delay has passed every configured pair not yet added is added
     * and scheduled; once the remove delay has passed every configured pair
     * that was added and not yet removed is removed and scheduled. The
     * invariant that only added pairs are removed is kept.
     */
    method OnTick(now: real)
      requires Valid()
      modifies this`startTimestamp, this`pairsAdded, this`pairsRemoved, this`scheduledAdds, this`scheduledRemoves
      ensures Valid()
      ensures startTimestamp == Some(old(startTimestamp).GetOr(now))
      ensures var elapsed := now - startTimestamp.value;
              && pairsAdded == (if elapsed >= addPairsDelay then old(pairsAdded) + addTradingPairs else old(pairsAdded))
              && pairsRemoved == (if elapsed >= removePairsDelay then old(pairsRemoved) + removeTradingPairs * pairsAdded
                                  else old(pairsRemoved))
      ensures |scheduledAdds| >= |old(scheduledAdds)| && scheduledAdds[..|old(scheduledAdds)|] == old(scheduledAdds)
      ensures |scheduledRemoves| >= |old(scheduledRemoves)| && scheduledRemoves[..|old(scheduledRemoves)|] == old(scheduledRemoves)
      ensures old(AllAdded()) ==> AllAdded()
      ensures old(AllRemoved()) ==> AllRemoved()
      ensures now - startTimestamp.value >= addPairsDelay ==> AllAdded()
      ensures (&& now - startTimestamp.value >= addPairsDelay && now - startTimestamp.value >= removePairsDelay
               && removeTradingPairs <= addTradingPairs) ==> AllRemoved()
    {
      if startTimestamp.None? {
        startTimestamp := Some(now);
      }
      var elapsed := now - startTimestamp.value;
      if elapsed >= addPairsDelay {
        ScheduleAdds();
      }
      if elapsed >= removePairsDelay {
        ScheduleRemoves();
      }
    }

    /** The first loop of `on_tick`. */
    method ScheduleAdds()
      requires Valid()
      modifies this`pairsAdded, this`scheduledAdds
      ensures Valid()
      ensures pairsAdded == old(pairsAdded) + addTradingPairs
      ensures |scheduledAdds| >= |old(scheduledAdds)| && scheduledAdds[..|old(scheduledAdds)|] == old(scheduledAdds)
    {
      var todo := addTradingPairs;
      while todo != {}
        invariant todo <= addTradingPairs
        invariant Valid()
        invariant pairsAdded == old(pairsAdded) + (addTradingPairs - todo)
        invariant |scheduledAdds| >= |old(scheduledAdds)| && scheduledAdds[..|old(scheduledAdds)|] == old(scheduledAdds)
        decreases todo
      {
        var pair :| pair in todo;
        if pair !in pairsAdded {
          pairsAdded := pairsAdded + {pair};
          scheduledAdds := scheduledAdds + [pair];
        }
        todo := todo - {pair};
      }
    }

    /** The second loop of `on_tick`. */
    method ScheduleRemoves()
      requires Valid()
      modifies this`pairsRemoved, this`scheduledRemoves
      ensures Valid()
      ensures pairsRemoved == old(pairsRemoved) + removeTradingPairs * pairsAdded
      ensures |scheduledRemoves| >= |old(scheduledRemoves)| && scheduledRemoves[..|old(scheduledRemoves)|] == old(scheduledRemoves)
    {
      var todo := removeTradingPairs;
      while todo != {}
        invariant todo <= removeTradingPairs
        invariant Valid()
        invariant pairsRemoved == old(pairsRemoved) + (removeTradingPairs - todo) * pairsAdded
        invariant |scheduledRemoves| >= |old(scheduledRemoves)| && scheduledRemoves[..|old(scheduledRemoves)|] == old(scheduledRemoves)
        decreases todo
      {
        var pair :| pair in todo;
        if pair !in pairsRemoved && pair in pairsAdded {
          pairsRemoved := pairsRemoved + {pair};
          scheduledRemoves := scheduledRemoves + [pair];
        }
        todo := todo - {pair};
      }
    }
  }
}
