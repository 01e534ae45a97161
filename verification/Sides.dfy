/** The two sides of an order or a fill. */
module Sides {
  datatype Side = Buy | Sell {
    function Opposite(): Side {
      if this == Buy then Sell else Buy
    }
  }
}
