/** The single-slot, in-memory store of the current portfolio. */
module Repositories {
  import opened Portfolios

  class InMemoryPortfolioRepository {
    /** The stored portfolio; `null` when nothing is stored. */
    var portfolio: Portfolio?

    /** A fresh store holds nothing. */
    constructor ()
      ensures Get() == null
    {
      portfolio := null;
    }

    /** `get()`: the very object last saved, not a copy. */
    function Get(): Portfolio?
      reads this
    {
      portfolio
    }

    /** `save(p)`: replaces whatever was stored; `save(null)` clears the store. */
    method Save(p: Portfolio?)
      modifies this
      ensures Get() == p
    {
      portfolio := p;
    }
  }
}
