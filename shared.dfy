/**
 * The shared tail of an aggregator: `Arc<Mutex<usize>>` / `Arc<Mutex<u64>>`.
 * Every clone of one logical aggregator holds a reference to the same cell;
 * the lock itself is not modelled (the scan is run sequentially).
 */
module Shared {

  class SharedCount {
    var value: nat

    constructor ()
      ensures value == 0
    {
      value := 0;
    }
  }
}
