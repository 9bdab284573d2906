/** What range queries over transfer rows add up to. */
module Queried {
  import opened Transfers
  import opened DayCache

  /** A range query adds up to the total of the rows whose key starts with the prefix. */
  lemma {:induction false} QueriedTotal<V(!new)>(cfg: Config<Row, V>, q: Query, prefix: string, rows: seq<Row>)
    requires forall r :: cfg.key(r) == r.key
    ensures Total(q, WithPrefix(cfg, rows, prefix)) == TotalUnder(q, prefix, rows)
  {
    if rows != [] {
      var init, r := rows[..|rows| - 1], rows[|rows| - 1];
      QueriedTotal(cfg, q, prefix, init);
      TotalAppend(q, WithPrefix(cfg, init, prefix), if prefix <= r.key then [r] else []);
      assert [r][..0] == [] && Total(q, [r]) == Weight(q, r);
    }
  }
}
