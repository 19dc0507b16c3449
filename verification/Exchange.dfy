/** An upstream exchange, as far as it has to be closed (domain.py, ProviderExchange). */
module Exchanges {

  class Exchange {
    var closes: nat

    constructor ()
      ensures closes == 0
    {
      closes := 0;
    }

    method Close()
      modifies this
      ensures closes == old(closes) + 1
    {
      closes := closes + 1;
    }
  }
}
